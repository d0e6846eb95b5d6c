/** The backtest over bars: decisions on each closed bar, fills at the next bar's open. */
module OhlcEngine {
  import opened Outcomes
  import opened TradeBooks

  /** A bar and what the rules and the simulator would answer on it: which positions the exit rule wants
      closed, the lot the entry rule wants, the pips a position closed at the next open makes. */
  datatype Bar = Bar(openTime: int, closeTime: int, wantsExit: set<nat>, wantsEntry: Option<real>, pips: nat -> real)

  datatype Refusal = NoCandles | NotEnoughForWarmUp

  /** Exits are decided over the positions open when the bar closed; they fill at the next open. */
  function ExitsDone(b: Books, p: Params, hs: seq<Holding>, bar: Bar, at: int): Books {
    if hs == [] then b
    else
      var before := ExitsDone(b, p, hs[..|hs| - 1], bar, at);
      var h := hs[|hs| - 1];
      if h.id in bar.wantsExit then Exited(before, p, h, bar.pips(h.id), at) else before
  }

  /** Exits, then an entry if nothing is open any more. */
  function BarDone(b: Books, p: Params, bar: Bar, next: Bar): Books {
    var after := ExitsDone(b, p, b.positions, bar, next.openTime);
    if after.positions == [] && bar.wantsEntry.Some?
    then Entered(after, p, Holding(|after.entered|, bar.wantsEntry.value, next.openTime))
    else after
  }

  /** The bars from `warmup` up to and excluding `n`; each needs its successor. */
  function BarsDone(b: Books, p: Params, bars: seq<Bar>, warmup: nat, n: nat): Books
    requires n < |bars|
    decreases n
  {
    if n <= warmup then b else BarDone(BarsDone(b, p, bars, warmup, n - 1), p, bars[n - 1], bars[n])
  }

  function RunOf(p: Params, equity: Option<real>, bars: seq<Bar>, warmup: nat): Result<Books, Refusal> {
    if bars == [] then Err(NoCandles)
    else if |bars| <= warmup then Err(NotEnoughForWarmUp)
    else
      var final := bars[|bars| - 1];
      Ok(Ended(BarsDone(NewBooks(equity), p, bars, warmup, |bars| - 1), p, final.pips, final.closeTime))
  }

  /** What the run hands on to the statistics. */
  datatype Report = Report(trades: seq<Trade>, open: seq<Holding>, equity: Option<real>)

  method Run(p: Params, equity: Option<real>, bars: seq<Bar>, warmup: nat) returns (r: Result<Report, Refusal>)
    ensures match RunOf(p, equity, bars, warmup)
            case Ok(b) => r == Ok(Report(b.trades, b.positions, b.equity))
            case Err(refusal) => r == Err(refusal)
    ensures r.Err? <==> |bars| <= warmup || bars == []
    ensures r.Err? ==> r.error == if bars == [] then NoCandles else NotEnoughForWarmUp
  {
    if |bars| == 0 { return Err(NoCandles); }
    if |bars| <= warmup { return Err(NotEnoughForWarmUp); }
    var books := new EngineBooks(p, equity);
    var i := warmup;
    while i < |bars| - 1
      invariant warmup <= i <= |bars| - 1
      invariant books.Valid() && fresh(books) && books.params == p
      invariant books.State() == BarsDone(NewBooks(equity), p, bars, warmup, i)
    {
      CloseBar(books, bars[i], bars[i + 1]);
      i := i + 1;
    }
    var final := bars[|bars| - 1];
    books.CloseAll(final.pips, final.closeTime);
    r := Ok(Report(books.trades, books.positions, books.equity));
  }

  method CloseBar(books: EngineBooks, bar: Bar, next: Bar)
    requires books.Valid()
    modifies books
    ensures books.Valid() && books.State() == BarDone(old(books.State()), books.params, bar, next)
  {
    var open := books.positions;
    for k := 0 to |open|
      invariant books.Valid()
      invariant books.State() == ExitsDone(old(books.State()), books.params, open[..k], bar, next.openTime)
    {
      assert open[..k + 1][..k] == open[..k];
      if open[k].id in bar.wantsExit {
        books.Exit(open[k], bar.pips(open[k].id), next.openTime);
      }
    }
    assert open[..|open|] == open;
    if |books.positions| == 0 && bar.wantsEntry.Some? {
      books.Enter(bar.wantsEntry.value, next.openTime);
    }
  }

  // ---------------------------------------------------------------- Equity

  lemma BarKeeps(b: Books, p: Params, base: real, bar: Bar, next: Bar)
    requires Telescopes(b, p, base)
    ensures Telescopes(BarDone(b, p, bar, next), p, base)
    ensures BarDone(b, p, bar, next).equity.Some? == b.equity.Some?
  {
    assert b.positions != [] ==> b.positions[..|b.positions| - 1] == [];
    assert ExitsDone(b, p, [], bar, next.openTime) == b;
    var after := ExitsDone(b, p, b.positions, bar, next.openTime);
    if b.positions != [] && b.positions[0].id in bar.wantsExit {
      ExitTelescopes(b, p, base, bar.pips(b.positions[0].id), next.openTime);
      assert after == Exited(b, p, b.positions[0], bar.pips(b.positions[0].id), next.openTime);
    } else {
      assert after == b;
    }
    if after.positions == [] && bar.wantsEntry.Some? {
      EntryTelescopes(after, p, base, bar.wantsEntry.value, next.openTime);
    }
  }

  lemma {:induction false} BarsKeep(p: Params, equity: Option<real>, bars: seq<Bar>, warmup: nat, n: nat)
    requires n < |bars|
    ensures var b := BarsDone(NewBooks(equity), p, bars, warmup, n);
            Telescopes(b, p, Capital(NewBooks(equity), p)) && b.equity.Some? == equity.Some?
    decreases n
  {
    if n <= warmup {
      NewTelescopes(p, equity);
    } else {
      BarsKeep(p, equity, bars, warmup, n - 1);
      BarKeeps(BarsDone(NewBooks(equity), p, bars, warmup, n - 1), p, Capital(NewBooks(equity), p), bars[n - 1], bars[n]);
    }
  }

  // ---------------------------------------------------------------- Every wish is carried out

  predicate ExitsAt(b: Books, bar: Bar) {
    b.positions != [] && b.positions[0].id in bar.wantsExit
  }

  /** At the next open: the position the rule wants closed is the next trade, with the pips it makes there; then, with
      nothing open, a wanted entry opens a position of its lot; nothing else happens. */
  ghost predicate BarFollows(b: Books, bar: Bar, next: Bar, n: Books) {
    && (if ExitsAt(b, bar)
        then AddsTrade(b.trades, n.trades, b.positions[0], bar.pips(b.positions[0].id), next.openTime)
        else n.trades == b.trades)
    && if (b.positions == [] || ExitsAt(b, bar)) && bar.wantsEntry.Some? then
         var h := Holding(|b.entered|, bar.wantsEntry.value, next.openTime);
         n.entered == b.entered + [h] && n.positions == [h]
       else
         n.entered == b.entered && n.positions == if ExitsAt(b, bar) then [] else b.positions
  }

  lemma BarDoneFollows(b: Books, p: Params, bar: Bar, next: Bar)
    requires |b.positions| <= 1
    ensures BarFollows(b, bar, next, BarDone(b, p, bar, next))
  {
    assert b.positions != [] ==> b.positions[..|b.positions| - 1] == [];
    assert ExitsDone(b, p, [], bar, next.openTime) == b;
    if ExitsAt(b, bar) { ExitCloses(b, p, bar.pips(b.positions[0].id), next.openTime); }
  }

  /** Over every run: nothing before the warm-up is over, then each bar carries out what its rules wished. */
  lemma EveryBarFollows(p: Params, equity: Option<real>, bars: seq<Bar>, warmup: nat, n: nat)
    requires n + 1 < |bars|
    ensures var b, now := BarsDone(NewBooks(equity), p, bars, warmup, n), BarsDone(NewBooks(equity), p, bars, warmup, n + 1);
            if n < warmup then now == NewBooks(equity) else BarFollows(b, bars[n], bars[n + 1], now)
  {
    BarsKeep(p, equity, bars, warmup, n);
    BarDoneFollows(BarsDone(NewBooks(equity), p, bars, warmup, n), p, bars[n], bars[n + 1]);
  }

  /** And at the last bar what is still open is closed at its close. */
  lemma LastBarCloses(p: Params, equity: Option<real>, bars: seq<Bar>, warmup: nat)
    requires |bars| > warmup
    ensures var b, final := BarsDone(NewBooks(equity), p, bars, warmup, |bars| - 1), bars[|bars| - 1];
            ClosesAll(b, RunOf(p, equity, bars, warmup).value, final.pips, final.closeTime)
  {
    BarsKeep(p, equity, bars, warmup, |bars| - 1);
    var b, final := BarsDone(NewBooks(equity), p, bars, warmup, |bars| - 1), bars[|bars| - 1];
    EndClosesAll(b, p, final.pips, final.closeTime);
  }

  /**
   Equity is conserved over every run: it fails only for want of bars, ends with no open position, its
   trades are one-to-one with the entries and numbered from 0, each starts from the capital the one
   before left, and with compounding the final equity is the starting one plus the sum of all amounts.
   */
  lemma RunConserves(p: Params, equity: Option<real>, bars: seq<Bar>, warmup: nat)
    ensures RunOf(p, equity, bars, warmup).Ok? <==> |bars| > warmup
    ensures |bars| > warmup ==>
              var b := RunOf(p, equity, bars, warmup).value;
              && b.positions == [] && |b.trades| == |b.entered| && Telescopes(b, p, Capital(NewBooks(equity), p))
              && (equity.Some? ==> b.equity.Some? && b.equity.value == equity.value + TotalAmount(b.trades))
  {
    if |bars| > warmup {
      var base := Capital(NewBooks(equity), p);
      var final := bars[|bars| - 1];
      BarsKeep(p, equity, bars, warmup, |bars| - 1);
      var before := BarsDone(NewBooks(equity), p, bars, warmup, |bars| - 1);
      EndTelescopes(before, p, base, final.pips, final.closeTime);
      ForceKeepsCompounding(before, p, before.positions, final.pips, final.closeTime);
      var b := Ended(before, p, final.pips, final.closeTime);
      if equity.Some? {
        EquityIsSum(b, p, base, |b.trades|);
        assert b.trades[..|b.trades|] == b.trades;
      }
    }
  }
}
