/**
 One book entry per time frame: candles and averages fed by ticks, corrected now and then by
 an official series.
 */
module TimeFrameBook {
  import opened Outcomes
  import opened Candles
  import SmaLedger

  datatype Entry = Entry(tf: TimeFrame, acc: Accumulator, ledger: SmaLedger.Ledger)

  datatype TimeFrameSnapshot =
    TimeFrameSnapshot(tf: TimeFrame, confirmed: Candle, forming: Forming, indicators: SmaLedger.IndicatorValues)

  datatype BarReconciled =
    BarReconciled(tf: TimeFrame, before: Option<SmaLedger.SmaSnapshot>, after: SmaLedger.SmaSnapshot)

  predicate Ascending(cs: seq<Candle>) {
    forall i :: 0 <= i < |cs| - 1 ==> cs[i].openTime < cs[i + 1].openTime
  }

  predicate AllOf(tf: TimeFrame, cs: seq<Candle>) {
    forall i :: 0 <= i < |cs| ==> cs[i].tf == tf
  }

  /** What `warmUp` and `reconcile` demand of a series; they throw otherwise. */
  predicate IsSeries(tf: TimeFrame, cs: seq<Candle>) {
    cs != [] && AllOf(tf, cs) && Ascending(cs)
  }

  function Last(cs: seq<Candle>): Candle
    requires cs != []
  {
    cs[|cs| - 1]
  }

  function NewEntry(tf: TimeFrame, shortPeriod: SmaLedger.Window, longPeriod: SmaLedger.Window): Entry {
    Entry(tf, Accumulator(None, None), SmaLedger.NewLedger(shortPeriod, longPeriod))
  }

  function WarmedUp(e: Entry, history: seq<Candle>): Entry {
    if !IsSeries(e.tf, history) then e
    else e.(acc := e.acc.(lastConfirmed := Some(Last(history))),
            ledger := SmaLedger.LedgerWarmedUp(e.ledger, Closes(history)))
  }

  function Processed(e: Entry, tick: Tick): Entry {
    var acc := Accumulated(e.acc, tick, e.tf);
    var ledger :=
      if Ends(e.acc, tick, e.tf) then SmaLedger.OnEvent(e.ledger, SmaLedger.BarConfirmed(acc.lastConfirmed.value.close))
      else e.ledger;
    Entry(e.tf, acc, SmaLedger.OnEvent(ledger, SmaLedger.FormingUpdated(acc.forming.value.close)))
  }

  /** Throws while a candle is missing or the averages are not stable. */
  function Read(e: Entry): Result<TimeFrameSnapshot, string> {
    if e.acc.lastConfirmed.None? || e.acc.forming.None? then Err("no confirmed candle yet")
    else
      match SmaLedger.CurrentValues(e.ledger)
      case Err(error) => Err(error)
      case Ok(values) =>
        if e.acc.lastConfirmed.value.tf != e.tf then Err("other time frame")
        else Ok(TimeFrameSnapshot(e.tf, e.acc.lastConfirmed.value, e.acc.forming.value, values))
  }

  /** Whether the official series is taken over: valid, long enough, not ahead of the forming candle. */
  predicate Takes(e: Entry, official: seq<Candle>) {
    && IsSeries(e.tf, official)
    && |official| >= SmaLedger.RequiredBars(e.ledger)
    && Reconcilable(e.acc, Last(official), e.tf)
  }

  function Reconciled(e: Entry, official: seq<Candle>): Entry {
    if !Takes(e, official) then e
    else e.(acc := e.acc.(lastConfirmed := Some(Last(official))),
            ledger := SmaLedger.LedgerReseeded(e.ledger, Closes(official)))
  }

  /** None both when nothing differed and when the series is too short to compare. */
  function ReconcileResult(e: Entry, official: seq<Candle>): Result<Option<BarReconciled>, string> {
    if !IsSeries(e.tf, official) then Err("not a series of this time frame")
    else if |official| < SmaLedger.RequiredBars(e.ledger) then Ok(None)
    else if !Reconcilable(e.acc, Last(official), e.tf) then Err("official candle reaches into the forming candle")
    else
      var r := SmaLedger.ReconciliationOf(e.ledger, Closes(official));
      Ok(if !r.corrected || r.after.None? then None else Some(BarReconciled(e.tf, r.before, r.after.value)))
  }

  lemma {:induction false} AscendingPair(cs: seq<Candle>, i: nat, j: nat)
    requires Ascending(cs) && i < j < |cs|
    ensures cs[i].openTime < cs[j].openTime
  {
    assert cs[j - 1].openTime < cs[j - 1 + 1].openTime;
    if i < j - 1 { AscendingPair(cs, i, j - 1); }
  }

  /** Each candle against the next is enough. */
  lemma AscendingExactly(cs: seq<Candle>)
    ensures Ascending(cs) <==> forall i, j :: 0 <= i < j < |cs| ==> cs[i].openTime < cs[j].openTime
  {
    if Ascending(cs) {
      forall i, j | 0 <= i < j < |cs| ensures cs[i].openTime < cs[j].openTime { AscendingPair(cs, i, j); }
    }
  }

  // ---------------------------------------------------------------- The mutable objects

  method AscendingByOpenTime(cs: seq<Candle>) returns (ok: bool)
    ensures ok <==> Ascending(cs)
    ensures ok <==> forall i, j :: 0 <= i < j < |cs| ==> cs[i].openTime < cs[j].openTime
  {
    AscendingExactly(cs);
    var i := 1;
    while i < |cs|
      invariant 1 <= i && (i <= |cs| || i == 1)
      invariant forall j :: 0 <= j < i - 1 < |cs| ==> cs[j].openTime < cs[j + 1].openTime
    {
      var prev, curr := cs[i - 1].openTime, cs[i].openTime;
      if curr <= prev { return false; }
      i := i + 1;
    }
    return true;
  }

  class TimeFrameEntry {
    const tf: TimeFrame
    const accumulator: CandleAccumulator
    const ledger: SmaLedger.IndicatorLedger

    ghost predicate Valid()
      reads accumulator, accumulator.forming, ledger, ledger.repr
    {
      && accumulator.Valid() && ledger.Valid() && accumulator.tf == tf
      && accumulator !in ledger.repr && accumulator.forming !in ledger.repr
    }

    ghost function Footprint(): set<object?>
      reads accumulator, ledger
    {
      {accumulator, accumulator.forming} + ledger.repr
    }

    ghost function State(): Entry
      reads accumulator, accumulator.forming, ledger
    {
      Entry(tf, accumulator.State(), ledger.model)
    }

    constructor (tf: TimeFrame, shortPeriod: SmaLedger.Window, longPeriod: SmaLedger.Window)
      ensures this.tf == tf && Valid() && fresh(Footprint() - {null})
      ensures State() == NewEntry(tf, shortPeriod, longPeriod)
    {
      this.tf := tf;
      accumulator := new CandleAccumulator(tf);
      ledger := new SmaLedger.IndicatorLedger(shortPeriod, longPeriod);
    }

    method WarmUp(history: seq<Candle>) returns (r: Result<(), string>)
      requires Valid()
      modifies Footprint()
      ensures Valid() && fresh(Footprint() - old(Footprint()))
      ensures r.Ok? <==> IsSeries(tf, history)
      ensures r.Ok? <==> history != [] && (forall i :: 0 <= i < |history| ==> history[i].tf == tf)
                         && forall i, j :: 0 <= i < j < |history| ==> history[i].openTime < history[j].openTime
      ensures r.Ok? ==> accumulator.lastConfirmed == Some(history[|history| - 1])
      ensures State() == WarmedUp(old(State()), history)
    {
      if |history| == 0 { return Err("empty series"); }
      if exists i :: 0 <= i < |history| && history[i].tf != tf { return Err("other time frame"); }
      var ascending := AscendingByOpenTime(history);
      AscendingExactly(history);
      if !ascending { return Err("not ascending"); }
      ledger.WarmUp(Closes(history));
      r := accumulator.SeedHistory(history);
    }

    method Process(tick: Tick) returns (r: Result<TimeFrameSnapshot, string>)
      requires Valid()
      modifies Footprint()
      ensures Valid() && fresh(Footprint() - old(Footprint()))
      ensures State() == Processed(old(State()), tick)
      ensures r == Read(State())
    {
      var confirmed := accumulator.Accumulate(tick);
      if confirmed {
        ledger.OnCandleConfirmed(accumulator.lastConfirmed.value.close);
      }
      ledger.OnCandleUpdated(accumulator.forming.close);
      r := Snapshot();
    }

    method Snapshot() returns (r: Result<TimeFrameSnapshot, string>)
      requires Valid()
      ensures r == Read(State())
    {
      if accumulator.lastConfirmed.None? || accumulator.forming == null { return Err("no confirmed candle yet"); }
      var confirmed := accumulator.lastConfirmed.value;
      var values := ledger.Values();
      if values.Err? { return Err(values.error); }
      if confirmed.tf != tf { return Err("other time frame"); }
      r := Ok(TimeFrameSnapshot(tf, confirmed, accumulator.forming.Value(), values.value));
    }

    method IsValidSeries(official: seq<Candle>) returns (valid: bool)
      ensures valid <==> IsSeries(tf, official)
    {
      if |official| == 0 || exists i :: 0 <= i < |official| && official[i].tf != tf { return false; }
      valid := AscendingByOpenTime(official);
    }

    method Reconcile(official: seq<Candle>) returns (r: Result<Option<BarReconciled>, string>)
      requires Valid()
      modifies Footprint()
      ensures Valid() && fresh(Footprint() - old(Footprint()))
      ensures State() == Reconciled(old(State()), official)
      ensures r == ReconcileResult(old(State()), official)
      ensures r.Err? <==> !IsSeries(tf, official)
                          || (|official| >= ledger.requiredBarsForStable && accumulator.forming != null
                              && official[|official| - 1].openTime >= accumulator.forming.openTime)
      ensures accumulator.lastConfirmed ==
              if r.Ok? && |official| >= ledger.requiredBarsForStable then Some(official[|official| - 1])
              else old(accumulator.lastConfirmed)
    {
      var valid := IsValidSeries(official);
      if !valid { return Err("not a series of this time frame"); }
      if |official| < ledger.requiredBarsForStable { return Ok(None); }
      var taken := accumulator.ReconcileLastConfirmed(Last(official));
      if taken.Err? { return Err("official candle reaches into the forming candle"); }
      var reconciliation := ledger.ReconcileWith(Closes(official));
      if !reconciliation.corrected || reconciliation.after.None? { return Ok(None); }
      r := Ok(Some(BarReconciled(tf, reconciliation.before, reconciliation.after.value)));
    }
  }

  /** The entries of a round so far and what they read, or the error that ended it. */
  datatype Rounded = Rounded(entries: seq<Entry>, read: Result<seq<TimeFrameSnapshot>, string>)

  function RoundStep(before: Rounded, e: Entry, tick: Tick): Rounded {
    match before.read
    case Err(_) => Rounded(before.entries + [e], before.read)
    case Ok(snapshots) =>
      var after := Processed(e, tick);
      Rounded(before.entries + [after],
              match Read(after)
              case Err(error) => Err(error)
              case Ok(snapshot) => Ok(snapshots + [snapshot]))
  }

  /** One round: every entry processes the tick in turn, and the first that throws ends it. */
  function Round(es: seq<Entry>, tick: Tick): Rounded {
    if es == [] then Rounded([], Ok([])) else RoundStep(Round(es[..|es| - 1], tick), es[|es| - 1], tick)
  }

  lemma RoundNext(es: seq<Entry>, k: nat, tick: Tick)
    requires k < |es|
    ensures Round(es[..k + 1], tick) == RoundStep(Round(es[..k], tick), es[k], tick)
  {
    assert es[..k + 1][..k] == es[..k] && es[..k + 1][k] == es[k];
  }

  /** The book, entry by entry in the order of `LIVE_TIMEFRAMES`. */
  class TimeFrameBook {
    var entries: seq<Entry>

    constructor (shortPeriod: SmaLedger.Window, longPeriod: SmaLedger.Window)
      ensures |entries| == 4
      ensures forall k :: 0 <= k < 4 ==> entries[k] == NewEntry(LIVE_TIMEFRAMES[k], shortPeriod, longPeriod)
    {
      entries := [NewEntry(ONE_MINUTE, shortPeriod, longPeriod), NewEntry(FIFTEEN_MINUTE, shortPeriod, longPeriod),
                  NewEntry(ONE_HOUR, shortPeriod, longPeriod), NewEntry(ONE_DAY, shortPeriod, longPeriod)];
    }

    /** `processEntry` of one time frame. */
    method ProcessEntry(k: nat, tick: Tick) returns (r: Result<TimeFrameSnapshot, string>)
      requires k < |entries|
      modifies this
      ensures entries == old(entries)[k := Processed(old(entries)[k], tick)] && r == Read(entries[k])
    {
      entries := entries[k := Processed(entries[k], tick)];
      r := Read(entries[k]);
    }

    method OnTick(tick: Tick) returns (r: Result<seq<TimeFrameSnapshot>, string>)
      modifies this
      ensures Rounded(entries, r) == Round(old(entries), tick)
    {
      ghost var before := entries;
      var snapshots := [];
      for k := 0 to |entries|
        invariant |entries| == |before| && forall j :: k <= j < |before| ==> entries[j] == before[j]
        invariant Round(before[..k], tick) == Rounded(entries[..k], Ok(snapshots))
      {
        RoundNext(before, k, tick);
        UpdateSplits(entries, before, k, Processed(entries[k], tick));
        var read := ProcessEntry(k, tick);
        if read.Err? {
          RoundStops(before, tick, k + 1, read.error);
          return Err(read.error);
        }
        snapshots := snapshots + [read.value];
      }
      assert before[..|entries|] == before && entries[..|entries|] == entries;
      r := Ok(snapshots);
    }
  }

  lemma UpdateSplits<T>(now: seq<T>, before: seq<T>, k: nat, x: T)
    requires k < |now| == |before| && forall j :: k <= j < |before| ==> now[j] == before[j]
    ensures now[k := x][..k + 1] == now[..k] + [x]
    ensures now[k := x] == now[..k] + [x] + before[k + 1..]
  {
  }

  lemma {:induction false} RoundStops(es: seq<Entry>, tick: Tick, k: nat, error: string)
    requires k <= |es| && Round(es[..k], tick).read == Err(error)
    ensures Round(es, tick) == Rounded(Round(es[..k], tick).entries + es[k..], Err(error))
    decreases |es| - k
  {
    var before := Round(es[..k], tick).entries;
    if k == |es| {
      assert es[..k] == es && before + es[k..] == before;
    } else {
      RoundNext(es, k, tick);
      RoundStops(es, tick, k + 1, error);
      assert before + [es[k]] + es[k + 1..] == before + es[k..];
    }
  }
}
