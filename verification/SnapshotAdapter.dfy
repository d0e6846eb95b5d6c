/**
 Multi-time-frame backtests: a driving candle closes, and each other time frame takes the bar
 that closes at the same instant from its queue of upcoming bars.
 */
module SnapshotAdapter {
  import opened Outcomes
  import opened Candles
  import SmaLedger

  /** `events` is what the averages have been told since the warm-up. */
  datatype State =
    State(tf: TimeFrame, events: seq<SmaLedger.Event>, lastConfirmed: Option<Candle>, upcoming: seq<Candle>)

  /** The forming value shown for a time frame without ticks of its own: half a spread below a price. */
  const HALF_SPREAD := 0.0005

  predicate Aligned(time: int, tf: TimeFrame) {
    match tf
    case ONE_MINUTE => time % 60_000 == 0
    case FIFTEEN_MINUTE => time % 900_000 == 0
    case ONE_HOUR => time % 3_600_000 == 0
    case ONE_DAY => time % 86_400_000 == 0
  }

  /** On a boundary of its own periods. */
  lemma AlignedExactly(time: int, tf: TimeFrame)
    ensures Aligned(time, tf) <==> time % DurationMs(tf) == 0
  {
  }

  function ConfirmedWith(s: State, c: Candle): State {
    s.(events := s.events + [SmaLedger.BarConfirmed(c.close)], lastConfirmed := Some(c))
  }

  function DropBefore(queue: seq<Candle>, openTime: int): seq<Candle> {
    if queue == [] || queue[0].openTime >= openTime then queue else DropBefore(queue[1..], openTime)
  }

  /** What is left of a queue, and the bar taken from it, if any. */
  datatype Merge = Merge(rest: seq<Candle>, taken: Option<Candle>)

  /** The queue against the open time of the bar that has just closed: earlier heads are dropped, a
      match is taken, a later head waits. */
  function MergeOf(queue: seq<Candle>, expected: int): Merge {
    var rest := DropBefore(queue, expected);
    if rest != [] && rest[0].openTime == expected then Merge(rest[1..], Some(rest[0])) else Merge(rest, None)
  }

  /** At a driving close: nothing happens in the queue off the time frame's boundaries. */
  function MergeAt(queue: seq<Candle>, closeTime: int, tf: TimeFrame): Merge {
    if Aligned(closeTime, tf) then MergeOf(queue, closeTime - DurationMs(tf)) else Merge(queue, None)
  }

  function WithForming(s: State): State {
    if s.lastConfirmed.None? then s
    else s.(events := s.events + [SmaLedger.FormingUpdated(s.lastConfirmed.value.close - HALF_SPREAD)])
  }

  function Merged(s: State, m: Merge): State {
    (if m.taken.None? then s else ConfirmedWith(s, m.taken.value)).(upcoming := m.rest)
  }

  function WithMerge(s: State, m: Merge): State {
    WithForming(Merged(s, m))
  }

  /** A driving candle closed at `closeTime`. */
  function Driven(s: State, closeTime: int): State {
    WithMerge(s, MergeAt(s.upcoming, closeTime, s.tf))
  }

  /** The driving time frame itself: its candle is confirmed, the next open is the forming value. */
  function SignalDriven(s: State, candle: Candle, nextOpen: real): State {
    var c := ConfirmedWith(s, candle);
    c.(events := c.events + [SmaLedger.FormingUpdated(nextOpen - HALF_SPREAD)])
  }

  class TimeFrameState {
    const tf: TimeFrame
    var ledger: SmaLedger.Ledger
    var lastConfirmed: Option<Candle>
    var upcoming: seq<Candle>
    ghost var warmed: SmaLedger.Ledger
    ghost var events: seq<SmaLedger.Event>

    ghost predicate Valid()
      reads this
    {
      ledger == SmaLedger.OnEvents(warmed, events)
    }

    ghost function Value(): State
      reads this
    {
      State(tf, events, lastConfirmed, upcoming)
    }

    constructor (tf: TimeFrame, shortPeriod: SmaLedger.Window, longPeriod: SmaLedger.Window)
      ensures Valid() && Value() == State(tf, [], None, []) && warmed == SmaLedger.NewLedger(shortPeriod, longPeriod)
    {
      this.tf, ledger, lastConfirmed, upcoming := tf, SmaLedger.NewLedger(shortPeriod, longPeriod), None, [];
      warmed, events := SmaLedger.NewLedger(shortPeriod, longPeriod), [];
    }

    method WarmUp(candles: seq<Candle>)
      requires Valid()
      modifies this
      ensures Valid() && upcoming == old(upcoming)
      ensures if candles == [] then Value() == old(Value()) && warmed == old(warmed)
              else warmed == SmaLedger.LedgerWarmedUp(old(ledger), Closes(candles)) && events == []
                   && lastConfirmed == Some(candles[|candles| - 1])
    {
      if |candles| > 0 {
        ledger := SmaLedger.LedgerWarmedUp(ledger, Closes(candles));
        lastConfirmed := Some(candles[|candles| - 1]);
        warmed, events := ledger, [];
      }
    }

    /** Throws when the queue would go back before the warm-up. */
    method SetUpcoming(candles: seq<Candle>) returns (r: Result<(), string>)
      modifies this`upcoming
      ensures r.Err? <==> candles != [] && lastConfirmed.Some? && candles[0].openTime <= lastConfirmed.value.openTime
      ensures upcoming == if r.Err? || candles == [] then old(upcoming) else candles
    {
      if |candles| == 0 { return Ok(()); }
      if lastConfirmed.Some? && candles[0].openTime <= lastConfirmed.value.openTime {
        return Err("upcoming bars start before the end of the warm-up");
      }
      upcoming := candles;
      r := Ok(());
    }

    method Tell(e: SmaLedger.Event)
      requires Valid()
      modifies this`ledger, this`events
      ensures Valid() && events == old(events) + [e]
    {
      ledger := SmaLedger.OnEvent(ledger, e);
      events := events + [e];
      assert events[..|events| - 1] == old(events);
    }

    /** The queue of upcoming bars against the open time of the bar that has just closed. */
    method MergeQueue(expected: int)
      requires Valid()
      modifies this
      ensures Valid() && warmed == old(warmed)
      ensures Value() == Merged(old(Value()), MergeOf(old(upcoming), expected))
    {
      while |upcoming| > 0
        invariant Valid() && warmed == old(warmed) && Value() == old(Value()).(upcoming := upcoming)
        invariant DropBefore(upcoming, expected) == DropBefore(old(upcoming), expected)
        decreases |upcoming|
      {
        var head := upcoming[0].openTime;
        if head == expected {
          var next := upcoming[0];
          upcoming := upcoming[1..];
          Tell(SmaLedger.BarConfirmed(next.close));
          lastConfirmed := Some(next);
          return;
        }
        if head > expected { return; }
        upcoming := upcoming[1..];
      }
    }

    method MergeUpcoming(closeTime: int)
      requires Valid()
      modifies this
      ensures Valid() && warmed == old(warmed)
      ensures Value() == Merged(old(Value()), MergeAt(old(upcoming), closeTime, tf))
    {
      if Aligned(closeTime, tf) {
        MergeQueue(closeTime - DurationMs(tf));
      }
    }

    method OnDrivingClose(closeTime: int)
      requires Valid()
      modifies this
      ensures Valid() && warmed == old(warmed) && Value() == Driven(old(Value()), closeTime)
    {
      ghost var merged := Merged(Value(), MergeAt(upcoming, closeTime, tf));
      MergeUpcoming(closeTime);
      assert Value() == merged;
      UpdateForming();
    }

    /** The forming value is shown once a bar has been confirmed. */
    method UpdateForming()
      requires Valid()
      modifies this`ledger, this`events
      ensures Valid() && Value() == WithForming(old(Value()))
    {
      if lastConfirmed.Some? {
        Tell(SmaLedger.FormingUpdated(lastConfirmed.value.close - HALF_SPREAD));
      }
    }

    /** The driving time frame's own candle. */
    method OnSignalCandle(candle: Candle, nextOpen: real)
      requires Valid()
      modifies this
      ensures Valid() && warmed == old(warmed) && Value() == SignalDriven(old(Value()), candle, nextOpen)
      ensures events == old(events) + [SmaLedger.BarConfirmed(candle.close), SmaLedger.FormingUpdated(nextOpen - HALF_SPREAD)]
      ensures lastConfirmed == Some(candle) && upcoming == old(upcoming)
    {
      Tell(SmaLedger.BarConfirmed(candle.close));
      lastConfirmed := Some(candle);
      Tell(SmaLedger.FormingUpdated(nextOpen - HALF_SPREAD));
    }
  }

  // ---------------------------------------------------------------- Runs

  function DrivenBy(s: State, closeTimes: seq<int>): State {
    if closeTimes == [] then s else Driven(DrivenBy(s, closeTimes[..|closeTimes| - 1]), closeTimes[|closeTimes| - 1])
  }

  /** A bar that closes exactly when some driving candle so far closed. */
  predicate Due(c: Candle, closeTimes: seq<int>, tf: TimeFrame) {
    c.openTime + DurationMs(tf) in closeTimes && (c.openTime + DurationMs(tf)) % DurationMs(tf) == 0
  }

  /** The due bars, in queue order. */
  function DueBars(bars: seq<Candle>, closeTimes: seq<int>, tf: TimeFrame): seq<Candle> {
    if bars == [] then []
    else
      var before, last := DueBars(bars[..|bars| - 1], closeTimes, tf), bars[|bars| - 1];
      if Due(last, closeTimes, tf) then before + [last] else before
  }

  predicate Sorted(bars: seq<Candle>) {
    forall i, j :: 0 <= i < j < |bars| ==> bars[i].openTime < bars[j].openTime
  }

  predicate ClosesIncrease(times: seq<int>) {
    forall i, j :: 0 <= i < j < |times| ==> times[i] < times[j]
  }

  // ---------------------------------------------------------------- The queue and the due bars

  function MatchOf(bars: seq<Candle>, openTime: int): seq<Candle> {
    if bars == [] then []
    else if bars[|bars| - 1].openTime == openTime then [bars[|bars| - 1]]
    else MatchOf(bars[..|bars| - 1], openTime)
  }

  lemma {:induction false} MatchAt(bars: seq<Candle>, openTime: int, j: nat)
    requires Sorted(bars) && j < |bars| && bars[j].openTime == openTime
    ensures MatchOf(bars, openTime) == [bars[j]]
  {
    if j < |bars| - 1 { MatchAt(bars[..|bars| - 1], openTime, j); }
  }

  lemma {:induction false} NoMatch(bars: seq<Candle>, openTime: int)
    requires forall j :: 0 <= j < |bars| ==> bars[j].openTime != openTime
    ensures MatchOf(bars, openTime) == []
  {
    if bars != [] { NoMatch(bars[..|bars| - 1], openTime); }
  }

  lemma DueLater(c: Candle, closeTimes: seq<int>, closeTime: int, tf: TimeFrame)
    requires forall i :: 0 <= i < |closeTimes| ==> closeTimes[i] < closeTime
    ensures Due(c, closeTimes + [closeTime], tf) <==>
            Due(c, closeTimes, tf) || (c.openTime == closeTime - DurationMs(tf) && Aligned(closeTime, tf))
    ensures c.openTime >= closeTime - DurationMs(tf) ==> !Due(c, closeTimes, tf)
  {
  }

  /** A further driving close makes at most the one bar due that closes with it, after all others. */
  lemma {:induction false} DueGrows(bars: seq<Candle>, closeTimes: seq<int>, closeTime: int, tf: TimeFrame)
    requires Sorted(bars) && forall i :: 0 <= i < |closeTimes| ==> closeTimes[i] < closeTime
    ensures DueBars(bars, closeTimes + [closeTime], tf)
         == DueBars(bars, closeTimes, tf) + if Aligned(closeTime, tf) then MatchOf(bars, closeTime - DurationMs(tf)) else []
  {
    if bars != [] {
      var init, last := bars[..|bars| - 1], bars[|bars| - 1];
      DueGrows(init, closeTimes, closeTime, tf);
      DueLater(last, closeTimes, closeTime, tf);
      if last.openTime <= closeTime - DurationMs(tf) {
        forall i | 0 <= i < |init| ensures init[i].openTime != closeTime - DurationMs(tf) { assert bars[i].openTime < last.openTime; }
        NoMatch(init, closeTime - DurationMs(tf));
        assert DueBars(init, closeTimes + [closeTime], tf) == DueBars(init, closeTimes, tf);
      }
    }
  }

  /** What dropping heads comes to: a cut where the open times reach the expected one. */
  lemma {:induction false} DropCuts(queue: seq<Candle>, openTime: int) returns (n: nat)
    requires Sorted(queue)
    ensures n <= |queue| && DropBefore(queue, openTime) == queue[n..]
    ensures forall j :: 0 <= j < n ==> queue[j].openTime < openTime
    ensures forall j :: n <= j < |queue| ==> queue[j].openTime >= openTime
  {
    if queue == [] || queue[0].openTime >= openTime {
      n := 0;
    } else {
      var m := DropCuts(queue[1..], openTime);
      n := m + 1;
      assert queue[1..][m..] == queue[n..];
    }
  }

  /** The queue after the driving closes, and the bars taken from it so far. */
  datatype Merging = Merging(rest: seq<Candle>, taken: seq<Candle>)

  function OptionToSeq(o: Option<Candle>): seq<Candle> {
    if o.None? then [] else [o.value]
  }

  function MergingAfter(bars: seq<Candle>, closeTimes: seq<int>, tf: TimeFrame): Merging {
    if closeTimes == [] then Merging(bars, [])
    else
      var before := MergingAfter(bars, closeTimes[..|closeTimes| - 1], tf);
      var m := MergeAt(before.rest, closeTimes[|closeTimes| - 1], tf);
      Merging(m.rest, before.taken + OptionToSeq(m.taken))
  }

  /** The queue is what is left of the bars from `k` on, and what is gone closed no later than the last driving close. */
  predicate LeftFrom(queue: seq<Candle>, bars: seq<Candle>, k: nat, closeTimes: seq<int>, tf: TimeFrame) {
    && k <= |bars| && queue == bars[k..]
    && (k > 0 ==> closeTimes != [] && bars[k - 1].openTime + DurationMs(tf) <= closeTimes[|closeTimes| - 1])
  }

  /** Open times below, then above, the expected one: no match. */
  lemma NoMatchAround(bars: seq<Candle>, n: nat, openTime: int)
    requires Sorted(bars) && n <= |bars|
    requires (n > 0 ==> bars[n - 1].openTime < openTime) && (n < |bars| ==> bars[n].openTime > openTime)
    ensures MatchOf(bars, openTime) == []
  {
    forall j | 0 <= j < |bars| ensures bars[j].openTime != openTime {
      if j < n { assert bars[j].openTime <= bars[n - 1].openTime; }
      else { assert bars[n].openTime <= bars[j].openTime; }
    }
    NoMatch(bars, openTime);
  }

  /** Where a queue that holds the bars from `k` on is cut. */
  lemma QueueCut(bars: seq<Candle>, k: nat, openTime: int) returns (n: nat)
    requires Sorted(bars) && k <= |bars| && (k > 0 ==> bars[k - 1].openTime < openTime)
    ensures k <= n <= |bars| && DropBefore(bars[k..], openTime) == bars[n..]
    ensures n > 0 ==> bars[n - 1].openTime < openTime
    ensures n < |bars| ==> bars[n].openTime >= openTime
  {
    var queue := bars[k..];
    var cut := DropCuts(queue, openTime);
    n := k + cut;
    assert queue[cut..] == bars[n..];
    if cut > 0 { assert bars[n - 1] == queue[cut - 1]; }
    if n < |bars| { assert bars[n] == queue[cut]; }
  }

  /** One driving close takes exactly the bar of all bars that closes with it, if there is one. */
  lemma MergeTakesMatch(bars: seq<Candle>, k: nat, expected: int) returns (n: nat)
    requires Sorted(bars) && k <= |bars| && (k > 0 ==> bars[k - 1].openTime < expected)
    ensures n <= |bars| && MergeOf(bars[k..], expected).rest == bars[n..]
    ensures n > 0 ==> bars[n - 1].openTime <= expected
    ensures OptionToSeq(MergeOf(bars[k..], expected).taken) == MatchOf(bars, expected)
  {
    n := QueueCut(bars, k, expected);
    if n < |bars| && bars[n].openTime == expected {
      MatchAt(bars, expected, n);
      assert bars[n..][1..] == bars[n + 1..];
      n := n + 1;
    } else {
      NoMatchAround(bars, n, expected);
    }
  }

  /**
   Multi-time-frame merging is exact: with increasing driving closes and sorted upcoming bars, the
   bars taken are precisely those that close when some driving candle so far closed, in order and
   each once; the rest of the queue is a tail of the upcoming bars.
   */
  lemma {:induction false} MergesExactly(bars: seq<Candle>, closeTimes: seq<int>, tf: TimeFrame) returns (k: nat)
    requires Sorted(bars) && ClosesIncrease(closeTimes)
    ensures MergingAfter(bars, closeTimes, tf).taken == DueBars(bars, closeTimes, tf)
    ensures LeftFrom(MergingAfter(bars, closeTimes, tf).rest, bars, k, closeTimes, tf)
  {
    if closeTimes == [] {
      NothingDue(bars, tf);
      k := 0;
    } else {
      var init, closeTime := closeTimes[..|closeTimes| - 1], closeTimes[|closeTimes| - 1];
      k := MergesExactly(bars, init, tf);
      forall i | 0 <= i < |init| ensures init[i] < closeTime { assert closeTimes[i] < closeTimes[|init|]; }
      k := MergesOneMore(bars, MergingAfter(bars, init, tf), k, init, closeTime, tf);
      assert init + [closeTime] == closeTimes;
    }
  }

  lemma MergesOneMore(bars: seq<Candle>, merging: Merging, k: nat, closeTimes: seq<int>, closeTime: int, tf: TimeFrame)
    returns (n: nat)
    requires Sorted(bars) && forall i :: 0 <= i < |closeTimes| ==> closeTimes[i] < closeTime
    requires merging.taken == DueBars(bars, closeTimes, tf) && LeftFrom(merging.rest, bars, k, closeTimes, tf)
    ensures var m := MergeAt(merging.rest, closeTime, tf);
            && merging.taken + OptionToSeq(m.taken) == DueBars(bars, closeTimes + [closeTime], tf)
            && LeftFrom(m.rest, bars, n, closeTimes + [closeTime], tf)
  {
    DueGrows(bars, closeTimes, closeTime, tf);
    if Aligned(closeTime, tf) {
      n := AlignedClose(bars, merging.rest, k, closeTimes, closeTime, tf);
    } else {
      n := k;
      UnalignedClose(bars, merging.rest, k, closeTimes, closeTime, tf);
    }
  }

  lemma AlignedClose(bars: seq<Candle>, rest: seq<Candle>, k: nat, closeTimes: seq<int>, closeTime: int, tf: TimeFrame)
    returns (n: nat)
    requires Sorted(bars) && Aligned(closeTime, tf) && LeftFrom(rest, bars, k, closeTimes, tf)
    requires forall i :: 0 <= i < |closeTimes| ==> closeTimes[i] < closeTime
    ensures OptionToSeq(MergeAt(rest, closeTime, tf).taken) == MatchOf(bars, closeTime - DurationMs(tf))
    ensures LeftFrom(MergeAt(rest, closeTime, tf).rest, bars, n, closeTimes + [closeTime], tf)
  {
    n := MergeTakesMatch(bars, k, closeTime - DurationMs(tf));
  }

  lemma UnalignedClose(bars: seq<Candle>, rest: seq<Candle>, k: nat, closeTimes: seq<int>, closeTime: int, tf: TimeFrame)
    requires !Aligned(closeTime, tf) && LeftFrom(rest, bars, k, closeTimes, tf)
    requires forall i :: 0 <= i < |closeTimes| ==> closeTimes[i] < closeTime
    ensures MergeAt(rest, closeTime, tf) == Merge(rest, None) && LeftFrom(rest, bars, k, closeTimes + [closeTime], tf)
  {
  }

  lemma {:induction false} NothingDue(bars: seq<Candle>, tf: TimeFrame)
    ensures DueBars(bars, [], tf) == []
  {
    if bars != [] { NothingDue(bars[..|bars| - 1], tf); }
  }

  /** The averages have been told the bars taken, and last the provisional value of the last bar held. */
  ghost predicate HasTold(s: State, warm: seq<Candle>, merging: Merging, driven: bool) {
    var held := warm + merging.taken;
    && s.upcoming == merging.rest
    && s.lastConfirmed == (if held == [] then None else Some(held[|held| - 1]))
    && SmaLedger.ClosesOf(s.events) == Closes(merging.taken)
    && SmaLedger.ProvisionalOf(s.events) ==
       (if held == [] || !driven then None else Some(held[|held| - 1].close - HALF_SPREAD))
  }

  lemma Telling(events: seq<SmaLedger.Event>, e: SmaLedger.Event)
    ensures SmaLedger.ClosesOf(events + [e]) == SmaLedger.ClosesOf(events) + if e.BarConfirmed? then [e.close] else []
    ensures SmaLedger.ProvisionalOf(events + [e]) == if e.BarConfirmed? then None else Some(e.close)
  {
    assert (events + [e])[..|events|] == events;
  }

  lemma ConfirmTold(s: State, warm: seq<Candle>, merging: Merging, driven: bool, c: Candle)
    requires HasTold(s, warm, merging, driven)
    ensures HasTold(ConfirmedWith(s, c), warm, Merging(merging.rest, merging.taken + [c]), false)
  {
    Telling(s.events, SmaLedger.BarConfirmed(c.close));
    assert Closes(merging.taken + [c]) == Closes(merging.taken) + [c.close];
  }

  lemma FormingTold(s: State, warm: seq<Candle>, merging: Merging, driven: bool)
    requires HasTold(s, warm, merging, driven)
    ensures HasTold(WithForming(s), warm, merging, true)
  {
    if s.lastConfirmed.Some? {
      Telling(s.events, SmaLedger.FormingUpdated(s.lastConfirmed.value.close - HALF_SPREAD));
    }
  }

  lemma OneMoreMerge(s: State, warm: seq<Candle>, merging: Merging, driven: bool, m: Merge)
    requires HasTold(s, warm, merging, driven)
    ensures HasTold(WithMerge(s, m), warm, Merging(m.rest, merging.taken + OptionToSeq(m.taken)), true)
  {
    if m.taken.None? {
      assert merging.taken + OptionToSeq(m.taken) == merging.taken;
      FormingTold(s.(upcoming := m.rest), warm, Merging(m.rest, merging.taken), driven);
    } else {
      var c := m.taken.value;
      ConfirmTold(s, warm, merging, driven, c);
      FormingTold(ConfirmedWith(s, c).(upcoming := m.rest), warm, Merging(m.rest, merging.taken + [c]), false);
    }
  }

  lemma {:induction false} AllTold(s: State, warm: seq<Candle>, closeTimes: seq<int>)
    requires s.events == [] && s.lastConfirmed == if warm == [] then None else Some(warm[|warm| - 1])
    ensures DrivenBy(s, closeTimes).tf == s.tf
    ensures HasTold(DrivenBy(s, closeTimes), warm, MergingAfter(s.upcoming, closeTimes, s.tf), closeTimes != [])
  {
    if closeTimes == [] {
      assert warm + [] == warm;
    } else {
      var init, closeTime := closeTimes[..|closeTimes| - 1], closeTimes[|closeTimes| - 1];
      AllTold(s, warm, init);
      var before, merging := DrivenBy(s, init), MergingAfter(s.upcoming, init, s.tf);
      OneMoreMerge(before, warm, merging, init != [], MergeAt(merging.rest, closeTime, s.tf));
    }
  }

  ghost predicate ToldExactly(events: seq<SmaLedger.Event>, warm: seq<Candle>, taken: seq<Candle>, driven: bool) {
    var held := warm + taken;
    && Closes(warm) + SmaLedger.ClosesOf(events) == Closes(held)
    && SmaLedger.ProvisionalOf(events) == if held == [] || !driven then None else Some(held[|held| - 1].close - HALF_SPREAD)
  }

  lemma ToldInFull(s: State, warm: seq<Candle>, closeTimes: seq<int>)
    requires s.events == [] && s.lastConfirmed == if warm == [] then None else Some(warm[|warm| - 1])
    ensures ToldExactly(DrivenBy(s, closeTimes).events, warm, MergingAfter(s.upcoming, closeTimes, s.tf).taken,
                        closeTimes != [])
  {
    AllTold(s, warm, closeTimes);
    ClosesAppend(warm, MergingAfter(s.upcoming, closeTimes, s.tf).taken);
  }

  lemma ClosesAppend(xs: seq<Candle>, ys: seq<Candle>)
    ensures Closes(xs + ys) == Closes(xs) + Closes(ys)
  {
  }

  /** The ledger of a time frame that holds the given bars. */
  ghost predicate IsLedgerOf(l: SmaLedger.Ledger, sp: SmaLedger.Window, lp: SmaLedger.Window, held: seq<Candle>, driven: bool) {
    l == SmaLedger.BatchLedger(sp, lp, Closes(held),
                               if held == [] || !driven then None else Some(held[|held| - 1].close - HALF_SPREAD))
  }

  lemma LedgerOfTold(sp: SmaLedger.Window, lp: SmaLedger.Window, events: seq<SmaLedger.Event>, warm: seq<Candle>,
                     taken: seq<Candle>, driven: bool)
    requires ToldExactly(events, warm, taken, driven)
    ensures IsLedgerOf(SmaLedger.OnEvents(SmaLedger.LedgerWarmedUp(SmaLedger.NewLedger(sp, lp), Closes(warm)), events),
                       sp, lp, warm + taken, driven)
  {
    SmaLedger.LedgerIsBatch(sp, lp, Closes(warm), events);
  }

  /**
   The averages after increasing driving closes are the batch averages over the warm-up and the
   due bars, nothing else; the provisional value is half a spread below the last of their closes.
   */
  lemma LedgerHoldsDueBars(s: State, sp: SmaLedger.Window, lp: SmaLedger.Window, warm: seq<Candle>, closeTimes: seq<int>)
    requires s.events == [] && s.lastConfirmed == if warm == [] then None else Some(warm[|warm| - 1])
    requires Sorted(s.upcoming) && ClosesIncrease(closeTimes)
    ensures var warmed := SmaLedger.LedgerWarmedUp(SmaLedger.NewLedger(sp, lp), Closes(warm));
            IsLedgerOf(SmaLedger.OnEvents(warmed, DrivenBy(s, closeTimes).events), sp, lp,
                       warm + DueBars(s.upcoming, closeTimes, s.tf), closeTimes != [])
  {
    ToldInFull(s, warm, closeTimes);
    LedgerOfTold(sp, lp, DrivenBy(s, closeTimes).events, warm, MergingAfter(s.upcoming, closeTimes, s.tf).taken,
                 closeTimes != []);
    var k := MergesExactly(s.upcoming, closeTimes, s.tf);
  }

  lemma {:induction false} DueBarsAreDue(bars: seq<Candle>, closeTimes: seq<int>, tf: TimeFrame, c: Candle)
    ensures c in DueBars(bars, closeTimes, tf) <==> c in bars && Due(c, closeTimes, tf)
  {
    if bars != [] {
      DueBarsAreDue(bars[..|bars| - 1], closeTimes, tf, c);
      assert bars == bars[..|bars| - 1] + [bars[|bars| - 1]];
    }
  }

  /** A bar is ever taken if and only if it is queued and closes with some driving candle so far, on a boundary. */
  lemma TakesExactlyTheDue(bars: seq<Candle>, closeTimes: seq<int>, tf: TimeFrame, c: Candle)
    requires Sorted(bars) && ClosesIncrease(closeTimes)
    ensures c in MergingAfter(bars, closeTimes, tf).taken <==> c in bars && Due(c, closeTimes, tf)
  {
    var k := MergesExactly(bars, closeTimes, tf);
    DueBarsAreDue(bars, closeTimes, tf, c);
  }

  /** One driving close takes nothing but a queued bar that closes at that very moment, sorted queue or not. */
  lemma TakenAtItsClose(queue: seq<Candle>, closeTime: int, tf: TimeFrame)
    ensures var taken := MergeAt(queue, closeTime, tf).taken;
            taken.Some? ==> taken.value in queue && taken.value.openTime + DurationMs(tf) == closeTime && Aligned(closeTime, tf)
  {
    if Aligned(closeTime, tf) {
      DropKeepsOnly(queue, closeTime - DurationMs(tf));
    }
  }

  lemma {:induction false} DropKeepsOnly(queue: seq<Candle>, openTime: int)
    ensures forall c :: c in DropBefore(queue, openTime) ==> c in queue
  {
    if queue != [] { DropKeepsOnly(queue[1..], openTime); }
  }

  /** Closed at one of the given moments, none of which is later than the last one. */
  ghost predicate HasClosed(c: Candle, closeTimes: seq<int>, tf: TimeFrame) {
    && c.openTime + DurationMs(tf) in closeTimes
    && closeTimes != [] && c.openTime + DurationMs(tf) <= closeTimes[|closeTimes| - 1]
  }

  lemma {:induction false} TakenHaveClosed(bars: seq<Candle>, closeTimes: seq<int>, tf: TimeFrame)
    requires ClosesIncrease(closeTimes)
    ensures forall c :: c in MergingAfter(bars, closeTimes, tf).taken ==> HasClosed(c, closeTimes, tf)
  {
    if closeTimes != [] {
      var init, closeTime := closeTimes[..|closeTimes| - 1], closeTimes[|closeTimes| - 1];
      TakenHaveClosed(bars, init, tf);
      TakenAtItsClose(MergingAfter(bars, init, tf).rest, closeTime, tf);
      forall c | c in MergingAfter(bars, init, tf).taken ensures HasClosed(c, closeTimes, tf) {
        assert HasClosed(c, init, tf) && closeTimes[|init| - 1] < closeTimes[|init|];
      }
    }
  }

  /**
   No look-ahead: after any increasing driving closes, whatever bars are queued and in whatever order, the
   closes the averages have been told since the warm-up are those of bars that had closed by the current
   driving close.
   */
  lemma NeverAhead(s: State, warm: seq<Candle>, closeTimes: seq<int>)
    requires s.events == [] && s.lastConfirmed == if warm == [] then None else Some(warm[|warm| - 1])
    requires ClosesIncrease(closeTimes)
    ensures var taken := MergingAfter(s.upcoming, closeTimes, s.tf).taken;
            && SmaLedger.ClosesOf(DrivenBy(s, closeTimes).events) == Closes(taken)
            && forall c :: c in taken ==> HasClosed(c, closeTimes, s.tf)
  {
    AllTold(s, warm, closeTimes);
    TakenHaveClosed(s.upcoming, closeTimes, s.tf);
  }
}
