/** The one-pass statistics of a backtest, against what they stand for. */
module Statistics {

  datatype Closed = Closed(pnl: real, isBuy: bool, exitTime: int, holdingMs: int)

  function Total(ts: seq<Closed>): real {
    if ts == [] then 0.0 else Total(ts[..|ts| - 1]) + ts[|ts| - 1].pnl
  }

  function Abs(x: real): real {
    if x < 0.0 then -x else x
  }

  predicate IsWin(t: Closed) {
    t.pnl > 0.0
  }

  /** The trades that did (`win`) or did not make a profit; break-even counts as a loss. */
  function Only(ts: seq<Closed>, win: bool): seq<Closed> {
    if ts == [] then []
    else
      var before := Only(ts[..|ts| - 1], win);
      if IsWin(ts[|ts| - 1]) == win then before + [ts[|ts| - 1]] else before
  }

  function OfSide(ts: seq<Closed>, isBuy: bool): seq<Closed> {
    if ts == [] then []
    else
      var before := OfSide(ts[..|ts| - 1], isBuy);
      if ts[|ts| - 1].isBuy == isBuy then before + [ts[|ts| - 1]] else before
  }

  function Holding(ts: seq<Closed>): int {
    if ts == [] then 0 else Holding(ts[..|ts| - 1]) + ts[|ts| - 1].holdingMs
  }

  /** The largest profit (or loss) of the trades, 0 if there are none. */
  function Largest(ts: seq<Closed>, win: bool): real {
    if ts == [] then 0.0
    else
      var t, before := ts[|ts| - 1], Largest(ts[..|ts| - 1], win);
      if IsWin(t) == win && Abs(t.pnl) > before then Abs(t.pnl) else before
  }

  lemma {:induction false} LargestIsLargest(ts: seq<Closed>, win: bool)
    ensures Largest(ts, win) >= 0.0
    ensures forall i :: 0 <= i < |ts| && (ts[i].pnl > 0.0) == win ==> -Largest(ts, win) <= ts[i].pnl <= Largest(ts, win)
    ensures Largest(ts, win) == 0.0 || exists i :: 0 <= i < |ts| && ts[i].pnl == if win then Largest(ts, win) else -Largest(ts, win)
  {
    if ts != [] {
      LargestIsLargest(ts[..|ts| - 1], win);
      assert forall i :: 0 <= i < |ts| - 1 ==> ts[..|ts| - 1][i] == ts[i];
    }
  }

  datatype Basic = Basic(totalPnl: real, grossProfit: real, grossLoss: real, wins: nat, losses: nat,
                         longs: nat, shorts: nat, longWins: nat, shortWins: nat,
                         largestWin: real, largestLoss: real, holdingMs: int)

  function BasicOf(ts: seq<Closed>): Basic {
    Basic(Total(ts), Total(Only(ts, true)), -Total(Only(ts, false)), |Only(ts, true)|, |Only(ts, false)|,
          |OfSide(ts, true)|, |OfSide(ts, false)|, |Only(OfSide(ts, true), true)|, |Only(OfSide(ts, false), true)|,
          Largest(ts, true), Largest(ts, false), Holding(ts))
  }

  /** Profit less loss is the total, and every trade is on one side and won or lost. */
  lemma {:induction false} ProfitLessLossIsTotal(ts: seq<Closed>)
    ensures Total(Only(ts, true)) + Total(Only(ts, false)) == Total(ts)
    ensures |Only(ts, true)| + |Only(ts, false)| == |ts| == |OfSide(ts, true)| + |OfSide(ts, false)|
    ensures Total(Only(ts, true)) >= 0.0 >= Total(Only(ts, false))
  {
    if ts != [] {
      var init, t := ts[..|ts| - 1], ts[|ts| - 1];
      ProfitLessLossIsTotal(init);
      TotalAppends(Only(init, IsWin(t)), t);
    }
  }

  lemma TotalAppends(ts: seq<Closed>, t: Closed)
    ensures Total(ts + [t]) == Total(ts) + t.pnl
  {
    assert (ts + [t])[..|ts|] == ts;
  }

  /** One trade of the pass. */
  function Counted(b: Basic, t: Closed): Basic {
    var win := t.pnl > 0.0;
    Basic(b.totalPnl + t.pnl, if win then b.grossProfit + t.pnl else b.grossProfit,
          if win then b.grossLoss else b.grossLoss + Abs(t.pnl),
          if win then b.wins + 1 else b.wins, if win then b.losses else b.losses + 1,
          if t.isBuy then b.longs + 1 else b.longs, if t.isBuy then b.shorts else b.shorts + 1,
          if t.isBuy && win then b.longWins + 1 else b.longWins,
          if !t.isBuy && win then b.shortWins + 1 else b.shortWins,
          if win && t.pnl > b.largestWin then t.pnl else b.largestWin,
          if !win && Abs(t.pnl) > b.largestLoss then Abs(t.pnl) else b.largestLoss, b.holdingMs + t.holdingMs)
  }

  lemma BasicGrows(ts: seq<Closed>, t: Closed)
    ensures BasicOf(ts + [t]) == Counted(BasicOf(ts), t)
  {
    ResultAppends(ts, t);
    SideAppends(ts, t);
  }

  /** Sums grow by the trade: a profit to the gross profit, anything else, as a loss, to the gross loss. */
  lemma SumsGrow(ts: seq<Closed>, t: Closed)
    ensures var b, n := BasicOf(ts), BasicOf(ts + [t]);
            && n.totalPnl == b.totalPnl + t.pnl && n.holdingMs == b.holdingMs + t.holdingMs
            && n.grossProfit == b.grossProfit + (if t.pnl > 0.0 then t.pnl else 0.0)
            && n.grossLoss == b.grossLoss + (if t.pnl > 0.0 then 0.0 else -t.pnl)
  {
    BasicGrows(ts, t);
  }

  /** How many of the trades are of a kind. */
  ghost function HowMany(ts: seq<Closed>, kind: Closed -> bool): nat {
    |set i | 0 <= i < |ts| && kind(ts[i])|
  }

  lemma OneMoreOrNot(ts: seq<Closed>, t: Closed, kind: Closed -> bool)
    ensures HowMany(ts + [t], kind) == HowMany(ts, kind) + if kind(t) then 1 else 0
  {
    var before, after := set i | 0 <= i < |ts| && kind(ts[i]), set i | 0 <= i < |ts + [t]| && kind((ts + [t])[i]);
    assert after == if kind(t) then before + {|ts|} else before;
  }

  lemma NoneYet(kind: Closed -> bool)
    ensures HowMany([], kind) == 0
  {
    var none: seq<Closed> := [];
    assert |none| == 0;
  }

  const WON: Closed -> bool := (t: Closed) => t.pnl > 0.0
  const NOT_WON: Closed -> bool := (t: Closed) => t.pnl <= 0.0
  const BOUGHT: Closed -> bool := (t: Closed) => t.isBuy
  const SOLD: Closed -> bool := (t: Closed) => !t.isBuy
  const BOUGHT_AND_WON: Closed -> bool := (t: Closed) => t.isBuy && t.pnl > 0.0
  const SOLD_AND_WON: Closed -> bool := (t: Closed) => !t.isBuy && t.pnl > 0.0

  ghost predicate CountsFit(ts: seq<Closed>, b: Basic) {
    && b.wins == HowMany(ts, WON) && b.losses == HowMany(ts, NOT_WON)
    && b.longs == HowMany(ts, BOUGHT) && b.shorts == HowMany(ts, SOLD)
    && b.longWins == HowMany(ts, BOUGHT_AND_WON) && b.shortWins == HowMany(ts, SOLD_AND_WON)
  }

  /** The counts are those of the trades of each kind. */
  lemma {:induction false} CountsAre(ts: seq<Closed>)
    ensures CountsFit(ts, BasicOf(ts))
  {
    if ts == [] {
      NoneYet(WON); NoneYet(NOT_WON); NoneYet(BOUGHT); NoneYet(SOLD); NoneYet(BOUGHT_AND_WON); NoneYet(SOLD_AND_WON);
    } else {
      var init, t := ts[..|ts| - 1], ts[|ts| - 1];
      assert init + [t] == ts;
      CountsAre(init);
      BasicGrows(init, t);
      OneMoreOrNot(init, t, WON);
      OneMoreOrNot(init, t, NOT_WON);
      OneMoreOrNot(init, t, BOUGHT);
      OneMoreOrNot(init, t, SOLD);
      OneMoreOrNot(init, t, BOUGHT_AND_WON);
      OneMoreOrNot(init, t, SOLD_AND_WON);
    }
  }

  method CalcBasicStats(ts: seq<Closed>) returns (b: Basic)
    ensures b == BasicOf(ts) && CountsFit(ts, b)
    ensures b.grossProfit - b.grossLoss == b.totalPnl && b.wins + b.losses == |ts| == b.longs + b.shorts
  {
    b := Basic(0.0, 0.0, 0.0, 0, 0, 0, 0, 0, 0, 0.0, 0.0, 0);
    for i := 0 to |ts|
      invariant b == BasicOf(ts[..i])
    {
      BasicGrows(ts[..i], ts[i]);
      assert ts[..i] + [ts[i]] == ts[..i + 1];
      b := CountTrade(b, ts[i]);
    }
    assert ts[..|ts|] == ts;
    ProfitLessLossIsTotal(ts);
    CountsAre(ts);
  }

  /** The body of the pass over the trades. */
  method CountTrade(b: Basic, t: Closed) returns (r: Basic)
    ensures r == Counted(b, t)
  {
    var totalPnl, holdingMs := b.totalPnl + t.pnl, b.holdingMs + t.holdingMs;
    var wins, losses, grossProfit, grossLoss := b.wins, b.losses, b.grossProfit, b.grossLoss;
    var largestWin, largestLoss := b.largestWin, b.largestLoss;
    var longs, shorts, longWins, shortWins := b.longs, b.shorts, b.longWins, b.shortWins;
    if t.pnl > 0.0 {
      wins, grossProfit := wins + 1, grossProfit + t.pnl;
      if t.pnl > largestWin { largestWin := t.pnl; }
    } else {
      losses, grossLoss := losses + 1, grossLoss + Abs(t.pnl);
      if Abs(t.pnl) > largestLoss { largestLoss := Abs(t.pnl); }
    }
    if t.isBuy {
      longs := longs + 1;
      if t.pnl > 0.0 { longWins := longWins + 1; }
    } else {
      shorts := shorts + 1;
      if t.pnl > 0.0 { shortWins := shortWins + 1; }
    }
    r := Basic(totalPnl, grossProfit, grossLoss, wins, losses, longs, shorts, longWins, shortWins,
               largestWin, largestLoss, holdingMs);
  }

  lemma ResultAppends(ts: seq<Closed>, t: Closed)
    ensures var all, win := ts + [t], IsWin(t);
            && Total(all) == Total(ts) + t.pnl && Holding(all) == Holding(ts) + t.holdingMs
            && Total(Only(all, win)) == Total(Only(ts, win)) + t.pnl && Total(Only(all, !win)) == Total(Only(ts, !win))
            && |Only(all, win)| == |Only(ts, win)| + 1 && |Only(all, !win)| == |Only(ts, !win)|
            && Largest(all, win) == (if Abs(t.pnl) > Largest(ts, win) then Abs(t.pnl) else Largest(ts, win))
            && Largest(all, !win) == Largest(ts, !win)
  {
    assert (ts + [t])[..|ts|] == ts;
    TotalAppends(Only(ts, IsWin(t)), t);
  }

  lemma SideAppends(ts: seq<Closed>, t: Closed)
    ensures |OfSide(ts + [t], t.isBuy)| == |OfSide(ts, t.isBuy)| + 1 && OfSide(ts + [t], !t.isBuy) == OfSide(ts, !t.isBuy)
    ensures |Only(OfSide(ts + [t], t.isBuy), true)| == |Only(OfSide(ts, t.isBuy), true)| + if IsWin(t) then 1 else 0
    ensures |Only(OfSide(ts + [t], !t.isBuy), true)| == |Only(OfSide(ts, !t.isBuy), true)|
  {
    assert (ts + [t])[..|ts|] == ts;
    var side := OfSide(ts, t.isBuy);
    assert (side + [t])[..|side|] == side;
  }

  // ---------------------------------------------------------------- Drawdown

  /** Equity before the first trade and after each, starting from 0. */
  function Equities(ts: seq<Closed>): (es: seq<real>)
    ensures |es| == |ts| + 1
  {
    if ts == [] then [0.0]
    else
      var before := Equities(ts[..|ts| - 1]);
      before + [before[|before| - 1] + ts[|ts| - 1].pnl]
  }

  lemma {:induction false} EquityIsTotal(ts: seq<Closed>, k: nat)
    requires k <= |ts|
    ensures Equities(ts)[k] == Total(ts[..k])
  {
    if k == |ts| {
      assert ts[..k] == ts;
      if ts != [] { EquityIsTotal(ts[..k - 1], k - 1); assert ts[..k - 1][..k - 1] == ts[..k - 1]; }
    } else {
      EquityIsTotal(ts[..|ts| - 1], k);
      assert ts[..|ts| - 1][..k] == ts[..k];
    }
  }

  lemma EquityNext(ts: seq<Closed>, i: nat)
    requires i < |ts|
    ensures Equities(ts)[0] == 0.0 && Equities(ts)[i + 1] == Equities(ts)[i] + ts[i].pnl
  {
    EquityIsTotal(ts, 0);
    EquityIsTotal(ts, i);
    EquityIsTotal(ts, i + 1);
    assert ts[..i + 1][..i] == ts[..i];
  }

  /** The latest strict high up to `j`, 0 if there is none. */
  function PeakAt(es: seq<real>, j: nat): (i: nat)
    requires j < |es|
    ensures i <= j
  {
    if j == 0 then 0
    else
      var before := PeakAt(es, j - 1);
      if es[j] > es[before] then j else before
  }

  /** Strictly above everything before. */
  predicate IsHigh(es: seq<real>, m: nat)
    requires m < |es|
  {
    m > 0 && forall k :: 0 <= k < m ==> es[k] < es[m]
  }

  lemma {:induction false} PeakIsLargest(es: seq<real>, j: nat, k: nat)
    requires k <= j < |es|
    ensures es[k] <= es[PeakAt(es, j)]
  {
    if k < j { PeakIsLargest(es, j - 1, k); }
  }

  /** The peak is a strict high, and there is none after it. */
  lemma {:induction false} PeakIsLatestHigh(es: seq<real>, j: nat, m: nat)
    requires m <= j < |es|
    ensures PeakAt(es, j) > 0 ==> IsHigh(es, PeakAt(es, j))
    ensures IsHigh(es, m) ==> m <= PeakAt(es, j)
  {
    if j > 0 {
      PeakIsLatestHigh(es, j - 1, if m < j then m else j - 1);
      forall k | 0 <= k < j ensures es[k] <= es[PeakAt(es, j - 1)] { PeakIsLargest(es, j - 1, k); }
    }
  }

  /** The largest fall of equity from a peak to a later point. */
  function MaxDrawdown(es: seq<real>, n: nat): real
    requires n < |es|
  {
    if n == 0 then 0.0
    else
      var dd := es[PeakAt(es, n)] - es[n];
      if dd > MaxDrawdown(es, n - 1) then dd else MaxDrawdown(es, n - 1)
  }

  /** It is the largest fall from any point to any later one, and such a fall exists. */
  lemma {:induction false} MaxDrawdownBounds(es: seq<real>, n: nat, i: nat, j: nat)
    requires i <= j <= n < |es|
    ensures es[i] - es[j] <= MaxDrawdown(es, n)
  {
    if n > 0 {
      if j < n { MaxDrawdownBounds(es, n - 1, i, j); }
      else { PeakIsLargest(es, n, i); }
    }
  }

  lemma {:induction false} MaxDrawdownHappens(es: seq<real>, n: nat) returns (i: nat, j: nat)
    requires n < |es|
    ensures i <= j <= n && es[i] - es[j] == MaxDrawdown(es, n)
  {
    i, j := 0, 0;
    if n > 0 {
      i, j := MaxDrawdownHappens(es, n - 1);
      if MaxDrawdown(es, n) != MaxDrawdown(es, n - 1) { i, j := PeakAt(es, n), n; }
    }
  }

  /** Equity has been below the peak since the peak: a drawdown is under way. */
  function Underwater(es: seq<real>, j: nat): bool
    requires j < |es|
  {
    j > 0 && PeakAt(es, j) < j && (es[j] < es[PeakAt(es, j)] || Underwater(es, j - 1))
  }

  lemma {:induction false} UnderwaterSincePeak(es: seq<real>, j: nat)
    requires j < |es|
    ensures Underwater(es, j) <==> exists k :: PeakAt(es, j) < k <= j && es[k] < es[PeakAt(es, j)]
  {
    if j > 0 { UnderwaterSincePeak(es, j - 1); }
  }

  /** The time of a peak; before any high, the first trade's exit stands in. */
  function PeakTime(ts: seq<Closed>, peak: nat): int
    requires peak <= |ts| && ts != []
  {
    if peak == 0 then ts[0].exitTime else ts[peak - 1].exitTime
  }

  /** From the peak before to trade `m`. */
  function Duration(ts: seq<Closed>, es: seq<real>, peakUpTo: nat, m: nat): int
    requires 0 < m <= |ts| && peakUpTo < |es| == |ts| + 1
  {
    ts[m - 1].exitTime - PeakTime(ts, PeakAt(es, peakUpTo))
  }

  /** The strict high `m` ends a drawdown. */
  predicate Recovers(es: seq<real>, m: nat)
    requires 0 < m < |es|
  {
    PeakAt(es, m) == m && Underwater(es, m - 1)
  }

  /** The longest drawdown that has ended, 0 if there is none of positive length. */
  function LongestRecovery(ts: seq<Closed>, es: seq<real>, n: nat): int
    requires n < |es| == |ts| + 1
  {
    if n == 0 then 0
    else
      var before := LongestRecovery(ts, es, n - 1);
      if Recovers(es, n) && Duration(ts, es, n - 1, n) > before then Duration(ts, es, n - 1, n) else before
  }

  lemma {:induction false} LongestRecoveryIsLongest(ts: seq<Closed>, es: seq<real>, n: nat)
    requires n < |es| == |ts| + 1
    ensures LongestRecovery(ts, es, n) >= 0
    ensures forall m :: 0 < m <= n && Recovers(es, m) ==> Duration(ts, es, m - 1, m) <= LongestRecovery(ts, es, n)
    ensures LongestRecovery(ts, es, n) == 0
         || exists m :: 0 < m <= n && Recovers(es, m) && Duration(ts, es, m - 1, m) == LongestRecovery(ts, es, n)
  {
    if n > 0 { LongestRecoveryIsLongest(ts, es, n - 1); }
  }

  /** The longest drawdown: ended, or still open after the last trade. */
  function LongestDrawdown(ts: seq<Closed>): int
    requires ts != []
  {
    var es := Equities(ts);
    var ended, open := LongestRecovery(ts, es, |ts|), Duration(ts, es, |ts|, |ts|);
    if Underwater(es, |ts|) && open > ended then open else ended
  }

  method CalcDrawdown(ts: seq<Closed>) returns (maxDD: real, maxDDDuration: int)
    requires ts != []
    ensures maxDD == MaxDrawdown(Equities(ts), |ts|)
    ensures maxDDDuration == LongestDrawdown(ts)
  {
    ghost var es := Equities(ts);
    var equity, peak := 0.0, 0.0;
    maxDD, maxDDDuration := 0.0, 0;
    var lastPeakTime := ts[0].exitTime;
    var currentDDStart, inDrawdown := lastPeakTime, false;
    EquityNext(ts, 0);
    for i := 0 to |ts|
      invariant equity == es[i] && peak == es[PeakAt(es, i)] && lastPeakTime == PeakTime(ts, PeakAt(es, i))
      invariant inDrawdown == Underwater(es, i) && (inDrawdown ==> currentDDStart == lastPeakTime)
      invariant maxDD == MaxDrawdown(es, i) && maxDD >= 0.0
      invariant maxDDDuration == LongestRecovery(ts, es, i)
    {
      var t := ts[i];
      EquityNext(ts, i);
      PeakIsLargest(es, i, i);
      equity := equity + t.pnl;
      if equity > peak {
        if inDrawdown {
          var duration := t.exitTime - currentDDStart;
          if duration > maxDDDuration { maxDDDuration := duration; }
          inDrawdown := false;
        }
        peak := equity;
        lastPeakTime := t.exitTime;
      }
      var dd := peak - equity;
      if dd > 0.0 {
        if !inDrawdown {
          currentDDStart := lastPeakTime;
          inDrawdown := true;
        }
        if dd > maxDD { maxDD := dd; }
      }
    }
    if inDrawdown {
      var lastExit := ts[|ts| - 1].exitTime;
      var duration := lastExit - currentDDStart;
      if duration > maxDDDuration { maxDDDuration := duration; }
    }
  }

  // ---------------------------------------------------------------- Streaks

  /** The trades from `i` on, `k` of them, all won (or all lost). */
  ghost predicate IsStreak(ts: seq<Closed>, i: nat, k: nat, win: bool)
    requires i + k <= |ts|
  {
    forall j :: i <= j < i + k ==> (ts[j].pnl > 0.0) == win
  }

  /** `x` is the length of the longest streak among the first `n` trades. */
  ghost predicate IsLongestStreak(ts: seq<Closed>, n: nat, x: nat, win: bool)
    requires n <= |ts|
  {
    && (forall i: nat, k: nat :: i + k <= n && IsStreak(ts, i, k, win) ==> k <= x)
    && exists i: nat :: i + x <= n && IsStreak(ts, i, x, win)
  }

  /** `c` is the length of the longest streak that ends at `n`. */
  ghost predicate IsTail(ts: seq<Closed>, n: nat, c: nat, win: bool)
    requires n <= |ts|
  {
    c <= n && IsStreak(ts, n - c, c, win) && (c < n ==> (ts[n - c - 1].pnl > 0.0) != win)
  }

  lemma StreakGrows(ts: seq<Closed>, n: nat, c: nat, x: nat, win: bool)
    requires n < |ts| && IsTail(ts, n, c, win) && IsLongestStreak(ts, n, x, win)
    ensures var now := if IsWin(ts[n]) == win then c + 1 else 0;
            IsTail(ts, n + 1, now, win) && IsLongestStreak(ts, n + 1, if now > x then now else x, win)
  {
    var now := if IsWin(ts[n]) == win then c + 1 else 0;
    assert IsStreak(ts, n + 1 - now, now, win);
    if c < n { assert IsWin(ts[n - c - 1]) != win; }
    forall i: nat, k: nat | i + k <= n + 1 && IsStreak(ts, i, k, win) ensures k <= x || k <= now {
      if i + k <= n {
        assert IsStreak(ts, i, k, win);
      } else if k > 0 {
        assert IsWin(ts[n]) == win;
      }
    }
    if now <= x {
      var i: nat :| i + x <= n && IsStreak(ts, i, x, win);
    }
  }

  method CalcStreaks(ts: seq<Closed>) returns (maxWins: nat, maxLosses: nat)
    ensures IsLongestStreak(ts, |ts|, maxWins, true)
    ensures IsLongestStreak(ts, |ts|, maxLosses, false)
  {
    maxWins, maxLosses := 0, 0;
    var currentWins, currentLosses := 0, 0;
    assert IsStreak(ts, 0, 0, true) && IsStreak(ts, 0, 0, false);
    for i := 0 to |ts|
      invariant IsTail(ts, i, currentWins, true) && IsLongestStreak(ts, i, maxWins, true)
      invariant IsTail(ts, i, currentLosses, false) && IsLongestStreak(ts, i, maxLosses, false)
    {
      StreakGrows(ts, i, currentWins, maxWins, true);
      StreakGrows(ts, i, currentLosses, maxLosses, false);
      if ts[i].pnl > 0.0 {
        currentWins, currentLosses := currentWins + 1, 0;
        if currentWins > maxWins { maxWins := currentWins; }
      } else {
        currentLosses, currentWins := currentLosses + 1, 0;
        if currentLosses > maxLosses { maxLosses := currentLosses; }
      }
    }
  }

  // ---------------------------------------------------------------- Three trades

  /** A win of 100, a loss of 40 and a break-even, closed at 10, 20 and 35. */
  const THREE: seq<Closed> := [Closed(100.0, true, 10, 5), Closed(-40.0, false, 20, 6), Closed(0.0, true, 35, 7)]

  lemma ThreeEquities()
    ensures Equities(THREE) == [0.0, 100.0, 60.0, 60.0]
  {
    EquityNext(THREE, 0);
    EquityNext(THREE, 1);
    EquityNext(THREE, 2);
  }

  lemma FallAndStay(es: seq<real>)
    requires es == [0.0, 100.0, 60.0, 60.0]
    ensures PeakAt(es, 0) == 0 && PeakAt(es, 1) == 1 && PeakAt(es, 2) == 1 && PeakAt(es, 3) == 1
    ensures MaxDrawdown(es, 3) == 40.0
    ensures !Underwater(es, 0) && !Underwater(es, 1) && Underwater(es, 3)
  {
    assert MaxDrawdown(es, 1) == 0.0 && MaxDrawdown(es, 2) == 40.0;
  }

  /** The fall of 40 from the win has lasted from 10 to 35. */
  lemma ThreeInDrawdown()
    ensures MaxDrawdown(Equities(THREE), 3) == 40.0 && LongestDrawdown(THREE) == 25
  {
    var es := Equities(THREE);
    ThreeEquities();
    FallAndStay(es);
    assert LongestRecovery(THREE, es, 1) == 0;
    assert LongestRecovery(THREE, es, 2) == 0;
    assert LongestRecovery(THREE, es, 3) == 0;
  }
}
