/**
 The lot from the capital and the target margin level, and what the commands of one cycle need
 in margin. Decimal division keeps a number of digits and rounds half up; `unit` is the number of
 steps in 1 at the last digit (ten to the twentieth by default).
 */
module Sizing {
  import opened Outcomes
  import opened Allocation

  type Positive = x: real | x > 0.0 witness 1.0

  function Rounded(x: real, unit: Positive): real {
    (x * unit + 0.5).Floor as real / unit
  }

  /** Margin per currency unit is the rate times the margin rate. */
  datatype Input = Input(quoteIsJpy: bool, capital: real, rate: Positive, target: Positive, marginRate: Positive)

  function MarginPerUnit(i: Input): Positive {
    i.rate * i.marginRate
  }

  /** The units the capital carries at the target level, as a number, before any rounding. */
  function Affordable(i: Input): real {
    i.capital / (i.target * MarginPerUnit(i))
  }

  /** What the two rounded divisions and the cut to hundreds leave, before the limits. */
  function Hundreds(i: Input, unit: Positive): int {
    Rounded(Rounded(Affordable(i), unit) / 100.0, unit).Floor
  }

  function Clamped(units: int): int {
    if units < MIN_LOT then MIN_LOT else if units > MAX_LOT then MAX_LOT else units
  }

  datatype SizingRefusal = NotJpy

  function Decide(i: Input, unit: Positive): Result<int, SizingRefusal> {
    if !i.quoteIsJpy then Err(NotJpy) else Ok(Clamped(Hundreds(i, unit) * 100))
  }

  lemma DecidedIsLot(i: Input, unit: Positive)
    ensures Decide(i, unit).Ok? <==> i.quoteIsJpy
    ensures Decide(i, unit).Ok? ==> IsLot(Decide(i, unit).value)
  {
  }

  // ---------------------------------------------------------------- Exactly which lot

  lemma FloorAtLeast(x: real, k: int)
    ensures x.Floor >= k <==> x >= k as real
  {
  }

  lemma DivideMultiply(x: real, d: Positive)
    ensures x / d * d == x
  {
  }

  lemma MulOrder(x: real, y: real, m: Positive)
    ensures x < y <==> x * m < y * m
    ensures x <= y <==> x * m <= y * m
    ensures x == y <==> x * m == y * m
  {
    if x < y { assert (y - x) * m > 0.0; }
    if x > y { assert (x - y) * m > 0.0; }
  }

  /** A rounded quotient reaches a multiple of the last digit exactly from half a step below it. */
  lemma RoundedAtLeast(x: real, unit: Positive, k: int)
    ensures Rounded(x, unit) * unit >= k as real <==> x * unit >= k as real - 0.5
  {
    DivideMultiply((x * unit + 0.5).Floor as real, unit);
    FloorAtLeast(x * unit + 0.5, k);
  }

  /** Digits to the right of the point: a hundred's worth of steps is a whole number of them. */
  predicate WholeUnit(unit: Positive) {
    unit == unit.Floor as real
  }

  /** How far below a hundred the two roundings can still reach it: 50 and a half steps of the last digit. */
  function Slack(unit: Positive): Positive {
    50.5 / unit
  }

  /** `n` in steps of the last digit. */
  function Steps(unit: Positive, n: int): int {
    n * unit.Floor
  }

  lemma StepsAreUnits(unit: Positive, n: int)
    requires WholeUnit(unit)
    ensures Steps(unit, n) as real == n as real * unit
  {
  }

  /** The second rounding, of a hundredth. */
  lemma HundredthAtLeast(raw: real, unit: Positive, n: int)
    requires WholeUnit(unit)
    ensures Rounded(raw / 100.0, unit) >= n as real <==> raw * unit >= (100 * Steps(unit, n) - 50) as real
  {
    var q := Rounded(raw / 100.0, unit);
    StepsAreUnits(unit, n);
    MulOrder(n as real, q, unit);
    RoundedAtLeast(raw / 100.0, unit, Steps(unit, n));
    Hundredth(raw, unit);
  }

  lemma Hundredth(raw: real, unit: Positive)
    ensures raw / 100.0 * unit == raw * unit / 100.0
  {
  }

  /** The first rounding, seen from the second. */
  lemma RawAtLeast(x: real, unit: Positive, n: int)
    requires WholeUnit(unit)
    ensures Rounded(x, unit) * unit >= (100 * Steps(unit, n) - 50) as real <==> x + Slack(unit) >= 100.0 * n as real
  {
    RoundedAtLeast(x, unit, 100 * Steps(unit, n) - 50);
    StepsAreUnits(unit, n);
    MulOrder(100.0 * n as real, x + Slack(unit), unit);
    DivideMultiply(50.5, unit);
    Expand(x, unit, n as real);
  }

  lemma Expand(x: real, unit: Positive, n: real)
    ensures (x + Slack(unit)) * unit == x * unit + Slack(unit) * unit
    ensures 100.0 * n * unit == 100.0 * (n * unit)
  {
  }

  lemma HundredsAtLeast(i: Input, unit: Positive, n: int)
    requires WholeUnit(unit)
    ensures Hundreds(i, unit) >= n <==> Affordable(i) + Slack(unit) >= 100.0 * n as real
  {
    var raw := Rounded(Affordable(i), unit);
    FloorAtLeast(Rounded(raw / 100.0, unit), n);
    HundredthAtLeast(raw, unit, n);
    RawAtLeast(Affordable(i), unit, n);
  }

  /**
   The chosen hundreds in closed form: as many as fit into what is affordable plus 50.5 steps of the
   last digit. So the lot never exceeds that, and a hundred more would.
   */
  lemma HundredsExactly(i: Input, unit: Positive)
    requires WholeUnit(unit)
    ensures Hundreds(i, unit) == ((Affordable(i) + Slack(unit)) / 100.0).Floor
  {
    var n := Hundreds(i, unit);
    HundredsAtLeast(i, unit, n);
    HundredsAtLeast(i, unit, n + 1);
  }

  /** The level is met: the lot's margin, rate times lot times margin rate, times the target is within the capital. */
  predicate MeetsTarget(i: Input, lot: int) {
    lot as real * i.rate * i.marginRate * i.target <= i.capital
  }

  lemma CostOf(i: Input, lot: real)
    ensures lot * i.rate * i.marginRate == lot * MarginPerUnit(i)
    ensures lot * i.rate * i.marginRate * i.target == lot * (i.target * MarginPerUnit(i))
  {
    assert lot * i.rate * i.marginRate == lot * (i.rate * i.marginRate);
    assert lot * MarginPerUnit(i) * i.target == lot * (i.target * MarginPerUnit(i));
  }

  lemma MeetsExactlyWithinAffordable(i: Input, lot: int)
    ensures MeetsTarget(i, lot) <==> lot as real <= Affordable(i)
  {
    var d: Positive := i.target * MarginPerUnit(i);
    DivideMultiply(i.capital, d);
    MulOrder(lot as real, Affordable(i), d);
    CostOf(i, lot as real);
  }

  /** The affordable units fall short of the next hundred by 50.5 steps of the last digit or less. */
  predicate JustBelowHundred(i: Input, unit: Positive) {
    var next := ((Affordable(i) + Slack(unit)) / 100.0).Floor;
    Affordable(i) < 100.0 * next as real
  }

  /** What is affordable reaches a hundred, rounding included; if not, the lot is raised to the minimum. */
  predicate ReachesHundred(i: Input, unit: Positive) {
    Affordable(i) + Slack(unit) >= 100.0
  }

  /** What is affordable stays below the hundred after the upper limit, rounding included. */
  predicate BelowCap(i: Input, unit: Positive) {
    Affordable(i) + Slack(unit) < (MAX_LOT + 100) as real
  }

  lemma SlackIsSmall(unit: Positive)
    requires WholeUnit(unit)
    ensures 0.0 < Slack(unit) <= 50.5
  {
    DivideMultiply(50.5, unit);
    assert unit >= 1.0;
    if Slack(unit) > 50.5 { MulOrder(50.5, Slack(unit), unit); }
  }

  /** The lot by what is affordable: the minimum, the maximum, or the hundreds that fit with the slack. */
  lemma LotByCases(i: Input, unit: Positive)
    requires WholeUnit(unit) && i.quoteIsJpy
    ensures var lot := Decide(i, unit).value;
            && (!ReachesHundred(i, unit) ==> lot == MIN_LOT)
            && (!BelowCap(i, unit) ==> lot == MAX_LOT)
            && (ReachesHundred(i, unit) && BelowCap(i, unit) ==> lot == Hundreds(i, unit) * 100)
            && (ReachesHundred(i, unit) ==> lot <= Hundreds(i, unit) * 100)
  {
    HundredsAtLeast(i, unit, 1);
    HundredsAtLeast(i, unit, MAX_LOT / 100 + 1);
  }

  /** The affordable units and the hundreds differ by less than a hundred once the slack is added. */
  lemma HundredsEnclose(i: Input, unit: Positive)
    requires WholeUnit(unit)
    ensures (Hundreds(i, unit) * 100) as real <= Affordable(i) + Slack(unit) < (Hundreds(i, unit) * 100 + 100) as real
  {
    HundredsAtLeast(i, unit, Hundreds(i, unit));
    HundredsAtLeast(i, unit, Hundreds(i, unit) + 1);
  }

  /**
   Exactly when the lot misses the target level: when it was raised to the minimum, or when what is
   affordable is just below a hundred, so that rounding carries it over, and the upper limit does not cap it.
   */
  lemma MissesTargetExactly(i: Input, unit: Positive)
    requires WholeUnit(unit) && i.quoteIsJpy
    ensures !MeetsTarget(i, Decide(i, unit).value) <==>
            !ReachesHundred(i, unit) || (JustBelowHundred(i, unit) && BelowCap(i, unit))
  {
    HundredsExactly(i, unit);
    MeetsExactlyWithinAffordable(i, Decide(i, unit).value);
    LotByCases(i, unit);
    SlackIsSmall(unit);
  }

  /**
   How far the level can be missed unless the lot was raised to the minimum, and that the lot is the
   largest in any case: a hundred more would not fit.
   */
  lemma LotBounds(i: Input, unit: Positive)
    requires WholeUnit(unit) && i.quoteIsJpy
    ensures var lot := Decide(i, unit).value;
            && (if ReachesHundred(i, unit)
                then lot as real * i.rate * i.marginRate * i.target
                       <= i.capital + Slack(unit) * i.rate * i.marginRate * i.target
                else lot == MIN_LOT)
            && (lot < MAX_LOT ==> !MeetsTarget(i, lot + 100))
  {
    LotByCases(i, unit);
    HundredsEnclose(i, unit);
    if ReachesHundred(i, unit) { CostWithinSlack(i, unit, Decide(i, unit).value); }
    MeetsExactlyWithinAffordable(i, Decide(i, unit).value + 100);
    SlackIsSmall(unit);
  }

  lemma CostWithinSlack(i: Input, unit: Positive, lot: int)
    requires lot as real <= Affordable(i) + Slack(unit)
    ensures lot as real * i.rate * i.marginRate * i.target <= i.capital + Slack(unit) * i.rate * i.marginRate * i.target
  {
    var d: Positive := i.target * MarginPerUnit(i);
    DivideMultiply(i.capital, d);
    MulOrder(lot as real, Affordable(i) + Slack(unit), d);
    CostOf(i, lot as real);
    CostOf(i, Slack(unit));
    assert (Affordable(i) + Slack(unit)) * d == i.capital + Slack(unit) * d;
  }

  /** What is affordable may be carried over a hundred it falls short of. */
  lemma CarriedOver(i: Input, unit: Positive)
    requires WholeUnit(unit) && i.quoteIsJpy && 200.0 - Slack(unit) <= Affordable(i) < 200.0
    ensures Decide(i, unit) == Ok(200) && !MeetsTarget(i, 200)
  {
    HundredsAtLeast(i, unit, 2);
    HundredsAtLeast(i, unit, 3);
    SlackIsSmall(unit);
    MeetsExactlyWithinAffordable(i, 200);
  }

  /** So the level can be missed with twenty digits: capital a little below 200 yen, one yen needed per unit. */
  lemma TargetCanBeMissed()
    ensures var unit := 100_000_000_000_000_000_000.0;
            var i := Input(true, 199.999_999_999_999_999_999_9, 1.0, 2.0, 0.5);
            Decide(i, unit) == Ok(200) && !MeetsTarget(i, 200)
  {
    var unit: Positive := 100_000_000_000_000_000_000.0;
    var i := Input(true, 199.999_999_999_999_999_999_9, 1.0, 2.0, 0.5);
    CarriedOver(i, unit);
  }

  /** And by the minimum: 10 yen carry ten units at this rate, but the lot is a hundred. */
  lemma MinimumCanMissTarget(unit: Positive)
    requires WholeUnit(unit)
    ensures var i := Input(true, 10.0, 1.0, 2.0, 0.5); Decide(i, unit) == Ok(MIN_LOT) && !MeetsTarget(i, MIN_LOT)
  {
    var i := Input(true, 10.0, 1.0, 2.0, 0.5);
    SlackIsSmall(unit);
    LotByCases(i, unit);
    MeetsExactlyWithinAffordable(i, MIN_LOT);
  }

  // ---------------------------------------------------------------- Capital and rate

  lemma ScaledQuotient(x: real, d: Positive, k: Positive)
    ensures x * k / (d * k) == x / d
  {
    DivideMultiply(x, d);
    assert x / d * (d * k) == x * k;
    SameQuotient(x / d, x * k, d * k);
  }

  lemma SameQuotient(q: real, x: real, d: real)
    requires d > 0.0 && q * d == x
    ensures x / d == q
  {
  }

  /** At a rate `k` times as high, `k` times the capital buys the same lot: only their ratio counts. */
  lemma RateScales(i: Input, unit: Positive, k: Positive)
    ensures k * i.rate > 0.0
    ensures Affordable(i.(rate := k * i.rate, capital := k * i.capital)) == Affordable(i)
    ensures Decide(i.(rate := k * i.rate, capital := k * i.capital), unit) == Decide(i, unit)
  {
    var j := i.(rate := k * i.rate, capital := k * i.capital);
    var d: Positive := i.target * MarginPerUnit(i);
    assert j.target * MarginPerUnit(j) == d * k by { assert k * i.rate * i.marginRate == k * (i.rate * i.marginRate); }
    ScaledQuotient(i.capital, d, k);
  }

  lemma SmallerQuotient(x: real, d: Positive, e: Positive)
    requires x >= 0.0 && d <= e
    ensures x / e <= x / d
  {
    DivideMultiply(x, d);
    DivideMultiply(x, e);
    MulOrder(0.0, x / d, d);
    if x / d < x / e {
      MulOrder(x / d, x / e, e);
    }
  }

  lemma {:induction false} AffordableFalls(i: Input, rate: Positive)
    requires i.capital >= 0.0 && rate >= i.rate
    ensures Affordable(i.(rate := rate)) <= Affordable(i)
  {
    var j := i.(rate := rate);
    MulOrder(i.rate, rate, i.marginRate);
    MulOrder(MarginPerUnit(i), MarginPerUnit(j), i.target);
    SmallerQuotient(i.capital, i.target * MarginPerUnit(i), i.target * MarginPerUnit(j));
  }

  /** A higher rate never buys a larger lot. */
  lemma HigherRateSmallerLot(i: Input, unit: Positive, rate: Positive)
    requires WholeUnit(unit) && i.quoteIsJpy && i.capital >= 0.0 && rate >= i.rate
    ensures Decide(i.(rate := rate), unit).value <= Decide(i, unit).value
  {
    var j := i.(rate := rate);
    AffordableFalls(i, rate);
    HundredsAtLeast(j, unit, Hundreds(j, unit));
    HundredsAtLeast(i, unit, Hundreds(j, unit));
  }

  /** A million yen at a rate of 150, 4 percent margin and level 2 buys 83,300 units, whose margin is 499,800 yen. */
  lemma AtRate150()
    ensures var i := Input(true, 1_000_000.0, 150.0, 2.0, 0.04);
            Decide(i, 100_000_000_000_000_000_000.0) == Ok(83_300) && MeetsTarget(i, 83_300) && !MeetsTarget(i, 83_400)
  {
    var unit: Positive := 100_000_000_000_000_000_000.0;
    var i := Input(true, 1_000_000.0, 150.0, 2.0, 0.04);
    assert MarginPerUnit(i) == 6.0 && i.target * MarginPerUnit(i) == 12.0;
    assert 83_333.3 < Affordable(i) < 83_333.4;
    SlackAtTwentyDigits();
    HundredsAtLeast(i, unit, 833);
    HundredsAtLeast(i, unit, 834);
  }

  lemma SlackAtTwentyDigits()
    ensures WholeUnit(100_000_000_000_000_000_000.0) && 0.0 < Slack(100_000_000_000_000_000_000.0) < 0.1
  {
  }

  // ---------------------------------------------------------------- One cycle of commands

  function MarginOf(lot: int, marginPerUnit: Positive): real {
    lot as real * marginPerUnit
  }

  /** The margin of a lot in whole yen, half a yen rounded up. */
  function RequiredMargin(marginPerUnit: Positive, lot: int): int {
    (MarginOf(lot, marginPerUnit) + 0.5).Floor
  }

  datatype Command = Command(strategy: Strategy, lot: int, requiredMargin: int)

  datatype CycleRefusal = Unsized | Unallocated

  /** Stages 3 to 6: allocate, size, cap, and one command per strategy that is not found open after all. */
  function CommandsOf(marginPerUnit: Positive, lots: seq<Allotted>, foundOpen: set<Strategy>): seq<Command> {
    if lots == [] then []
    else
      var l, before := lots[|lots| - 1], CommandsOf(marginPerUnit, lots[..|lots| - 1], foundOpen);
      if l.strategy in foundOpen then before
      else before + [Command(l.strategy, l.lot, RequiredMargin(marginPerUnit, l.lot))]
  }

  function CycleOf(i: Input, unit: Positive, detected: seq<Strategy>, held: set<Strategy>, foundOpen: set<Strategy>)
    : Result<seq<Command>, CycleRefusal>
  {
    var entries := Decided(detected, held);
    if AllZero(entries) then Ok([])
    else
      match Decide(i, unit)
      case Err(_) => Err(Unsized)
      case Ok(baseLot) =>
        match LotsOf(entries, baseLot)
        case Err(_) => Err(Unallocated)
        case Ok(lots) => Ok(CommandsOf(MarginPerUnit(i), lots, foundOpen))
  }

  /** The cap stage is the code's; the postcondition does without it, since it never fires. */
  method HandleSignals(i: Input, unit: Positive, detected: seq<Strategy>, held: set<Strategy>, foundOpen: set<Strategy>)
    returns (r: Result<seq<Command>, CycleRefusal>)
    ensures r == CycleOf(i, unit, detected, held, foundOpen)
  {
    var entries := Allocation.Decide(detected, held);
    if forall k :: 0 <= k < |entries.value| ==> entries.value[k].ratio == 0 { return Ok([]); }
    var baseLot := Decide(i, unit);
    if baseLot.Err? { return Err(Unsized); }
    var lots := FromAllocation(entries.value, baseLot.value);
    if lots.Err? { return Err(Unallocated); }
    var total := TotalLot(lots.value);
    EqualWeightsSumToOne(detected, held);
    DecidedIsLot(i, unit);
    LotsFitBaseLot(entries.value, baseLot.value);
    if total > MAX_LOT { return Ok([]); }
    var commands, marginPerUnit := [], MarginPerUnit(i);
    for k := 0 to |lots.value|
      invariant commands == CommandsOf(marginPerUnit, lots.value[..k], foundOpen)
    {
      assert lots.value[..k + 1][..k] == lots.value[..k];
      var l := lots.value[k];
      if l.strategy !in foundOpen {
        commands := commands + [Command(l.strategy, l.lot, RequiredMargin(marginPerUnit, l.lot))];
      }
    }
    assert lots.value[..|lots.value|] == lots.value;
    r := Ok(commands);
  }

  function TotalMargin(commands: seq<Command>): int {
    if commands == [] then 0 else TotalMargin(commands[..|commands| - 1]) + commands[|commands| - 1].requiredMargin
  }

  /** The margins of `count` commands: those of `units` currency units, and at most half a yen each. */
  predicate Within(margins: int, count: int, units: int, m: Positive) {
    margins as real <= MarginOf(units, m) + 0.5 * count as real
  }

  lemma OneMoreLot(margins: int, count: int, units: int, lot: int, m: Positive)
    requires lot >= 0 && Within(margins, count, units, m)
    ensures Within(margins, count, units + lot, m)
    ensures Within(margins + RequiredMargin(m, lot), count + 1, units + lot, m)
  {
    var a, b := units as real, lot as real;
    assert (units + lot) as real == a + b;
    assert (a + b) * m == a * m + b * m;
    assert b * m >= 0.0;
    assert RequiredMargin(m, lot) as real <= b * m + 0.5;
  }

  /** A command's margin is that of its lot to the nearest yen, half a yen up. */
  predicate MarginFits(i: Input, c: Command) {
    -0.5 < c.requiredMargin as real - c.lot as real * i.rate * i.marginRate <= 0.5
  }

  lemma MarginIsRounded(i: Input, strategy: Strategy, lot: int)
    ensures MarginFits(i, Command(strategy, lot, RequiredMargin(MarginPerUnit(i), lot)))
  {
    CostOf(i, lot as real);
  }

  /** Every command is for a lot that is not found open, with that lot and its margin. */
  lemma {:induction false} CommandIsLot(i: Input, lots: seq<Allotted>, foundOpen: set<Strategy>, c: Command)
    requires c in CommandsOf(MarginPerUnit(i), lots, foundOpen)
    ensures Allotted(c.strategy, c.lot) in lots && c.strategy !in foundOpen && MarginFits(i, c)
  {
    var init := lots[..|lots| - 1];
    assert lots == init + [lots[|lots| - 1]];
    if c in CommandsOf(MarginPerUnit(i), init, foundOpen) {
      CommandIsLot(i, init, foundOpen, c);
    } else {
      MarginIsRounded(i, c.strategy, c.lot);
    }
  }

  /** And every such lot has its command. */
  lemma {:induction false} LotHasCommand(i: Input, lots: seq<Allotted>, foundOpen: set<Strategy>, l: Allotted)
    returns (c: Command)
    requires l in lots && l.strategy !in foundOpen
    ensures c in CommandsOf(MarginPerUnit(i), lots, foundOpen) && c.strategy == l.strategy && c.lot == l.lot
  {
    var init := lots[..|lots| - 1];
    if l in init {
      c := LotHasCommand(i, init, foundOpen, l);
    } else {
      assert l == lots[|lots| - 1];
      c := Command(l.strategy, l.lot, RequiredMargin(MarginPerUnit(i), l.lot));
    }
  }

  lemma OneMoreCommand(m: Positive, lots: seq<Allotted>, foundOpen: set<Strategy>)
    requires lots != []
    ensures var before, commands := CommandsOf(m, lots[..|lots| - 1], foundOpen), CommandsOf(m, lots, foundOpen);
            var l := lots[|lots| - 1];
            if l.strategy in foundOpen then commands == before
            else |commands| == |before| + 1 && TotalMargin(commands) == TotalMargin(before) + RequiredMargin(m, l.lot)
  {
    var before, commands := CommandsOf(m, lots[..|lots| - 1], foundOpen), CommandsOf(m, lots, foundOpen);
    if lots[|lots| - 1].strategy !in foundOpen {
      assert commands[..|before|] == before;
    }
  }

  /** Margins are the lots' margin and at most half a yen each. */
  lemma {:induction false} MarginsFollowLots(m: Positive, lots: seq<Allotted>, foundOpen: set<Strategy>)
    requires forall k :: 0 <= k < |lots| ==> lots[k].lot >= 0
    ensures var commands := CommandsOf(m, lots, foundOpen);
            |commands| <= |lots| && Within(TotalMargin(commands), |commands|, TotalOf(lots), m)
  {
    if lots == [] {
      assert Within(0, 0, 0, m);
    } else {
      var init, l := lots[..|lots| - 1], lots[|lots| - 1];
      MarginsFollowLots(m, init, foundOpen);
      var before := CommandsOf(m, init, foundOpen);
      OneMoreLot(TotalMargin(before), |before|, TotalOf(init), l.lot, m);
      OneMoreCommand(m, lots, foundOpen);
      assert TotalOf(lots) == TotalOf(init) + l.lot;
    }
  }

  lemma {:induction false} LotsArePositive(entries: seq<Entry>, baseLot: int)
    requires LotsOf(entries, baseLot).Ok?
    ensures forall k :: 0 <= k < |LotsOf(entries, baseLot).value| ==> IsLot(LotsOf(entries, baseLot).value[k].lot)
  {
    if entries != [] { LotsArePositive(entries[..|entries| - 1], baseLot); }
  }

  function Larger(x: real, y: real): real {
    if x >= y then x else y
  }

  /** What the base lot may need in margin: the capital over the target level and the slack, or the minimum lot. */
  function BaseMargin(i: Input, unit: Positive): real {
    Larger(i.capital / i.target + Slack(unit) * i.rate * i.marginRate, MIN_LOT as real * i.rate * i.marginRate)
  }

  /**
   What one cycle puts into the queue: the required margins of all n commands come to at most half a yen
   each and the larger of two amounts: the margin of the minimum lot, and the capital over the target level
   with the margin of 50.5 steps of the last digit.
   */
  lemma CycleMarginIsBounded(i: Input, unit: Positive, detected: seq<Strategy>, held: set<Strategy>, foundOpen: set<Strategy>)
    requires WholeUnit(unit) && CycleOf(i, unit, detected, held, foundOpen).Ok?
    ensures var commands := CycleOf(i, unit, detected, held, foundOpen).value;
            TotalMargin(commands) as real <= BaseMargin(i, unit) + 0.5 * |commands| as real
  {
    BaseMarginIsPositive(i, unit);
    if i.quoteIsJpy { BaseMarginIsBounded(i, unit); }
    CycleWithin(i, unit, detected, held, foundOpen, BaseMargin(i, unit));
  }

  /** A bound on the base lot's margin bounds the cycle's. */
  lemma CycleWithin(i: Input, unit: Positive, detected: seq<Strategy>, held: set<Strategy>, foundOpen: set<Strategy>,
                    bound: real)
    requires CycleOf(i, unit, detected, held, foundOpen).Ok? && bound >= 0.0
    requires i.quoteIsJpy ==> MarginOf(Decide(i, unit).value, MarginPerUnit(i)) <= bound
    ensures var commands := CycleOf(i, unit, detected, held, foundOpen).value;
            TotalMargin(commands) as real <= bound + 0.5 * |commands| as real
  {
    var entries := Decided(detected, held);
    if !AllZero(entries) {
      EqualWeightsSumToOne(detected, held);
      DecidedIsLot(i, unit);
      var baseLot := Decide(i, unit).value;
      LotsWithinBase(entries, baseLot);
      MarginsWithinBase(MarginPerUnit(i), LotsOf(entries, baseLot).value, foundOpen, baseLot, bound);
    }
  }

  lemma LotsWithinBase(entries: seq<Entry>, baseLot: int)
    requires Accepted(entries) && IsLot(baseLot) && LotsOf(entries, baseLot).Ok?
    ensures var lots := LotsOf(entries, baseLot).value;
            TotalOf(lots) <= baseLot && forall k :: 0 <= k < |lots| ==> lots[k].lot >= 0
  {
    LotsFitBaseLot(entries, baseLot);
    LotsArePositive(entries, baseLot);
  }

  lemma BaseMarginIsPositive(i: Input, unit: Positive)
    ensures BaseMargin(i, unit) > 0.0
  {
  }

  lemma CommandHasShare(i: Input, detected: seq<Strategy>, held: set<Strategy>, foundOpen: set<Strategy>, baseLot: int,
                        lots: seq<Allotted>, c: Command)
    requires baseLot >= 0 && LotsOf(Decided(detected, held), baseLot) == Ok(lots)
    requires c in CommandsOf(MarginPerUnit(i), lots, foundOpen)
    ensures c.strategy in detected && c.strategy !in held && c.strategy !in foundOpen
    ensures IsLot(c.lot) && MarginFits(i, c)
  {
    CommandIsLot(i, lots, foundOpen, c);
    LotsArePositive(Decided(detected, held), baseLot);
    var e := LotIsShare(Decided(detected, held), baseLot, Allotted(c.strategy, c.lot));
    DecidedExactly(detected, held);
  }

  /**
   Who trades in a cycle: only detected strategies without a position, held or found open, each with a lot and
   the margin of that lot at the rate.
   */
  lemma CycleCommandsFit(i: Input, unit: Positive, detected: seq<Strategy>, held: set<Strategy>, foundOpen: set<Strategy>)
    requires CycleOf(i, unit, detected, held, foundOpen).Ok?
    ensures forall c :: c in CycleOf(i, unit, detected, held, foundOpen).value ==>
              c.strategy in detected && c.strategy !in held && c.strategy !in foundOpen && IsLot(c.lot) && MarginFits(i, c)
  {
    var entries := Decided(detected, held);
    if !AllZero(entries) {
      var baseLot := Decide(i, unit).value;
      var lots := LotsOf(entries, baseLot).value;
      DecidedIsLot(i, unit);
      forall c | c in CommandsOf(MarginPerUnit(i), lots, foundOpen)
        ensures c.strategy in detected && c.strategy !in held && c.strategy !in foundOpen && IsLot(c.lot) && MarginFits(i, c)
      {
        CommandHasShare(i, detected, held, foundOpen, baseLot, lots, c);
      }
    }
  }

  /**
   When a cycle ends without commands for a reason: with some strategy to trade, for a quote other than the yen,
   or for a share of the base lot that comes to less than a hundred units.
   */
  lemma CycleFailsExactly(i: Input, unit: Positive, detected: seq<Strategy>, held: set<Strategy>, foundOpen: set<Strategy>)
    ensures var r, entries := CycleOf(i, unit, detected, held, foundOpen), Decided(detected, held);
            var wanted := exists k :: 0 <= k < |entries| && entries[k].ratio != 0;
            && (r == Err(Unsized) <==> wanted && !i.quoteIsJpy)
            && (r == Err(Unallocated) <==>
                  && wanted && i.quoteIsJpy
                  && exists k :: 0 <= k < |entries| && entries[k].ratio != 0
                                 && Decide(i, unit).value * entries[k].ratio < 1_000_000_000_000)
  {
    DecidedIsLot(i, unit);
    if i.quoteIsJpy { LotsExistExactly(Decided(detected, held), Decide(i, unit).value); }
  }

  /** And nobody is left out, as long as there are not more of them than a ratio has steps. */
  lemma NobodyIsLeftOut(i: Input, unit: Positive, detected: seq<Strategy>, held: set<Strategy>, foundOpen: set<Strategy>,
                        commands: seq<Command>, s: Strategy) returns (c: Command)
    requires CycleOf(i, unit, detected, held, foundOpen) == Ok(commands)
    requires s in detected && s !in held && s !in foundOpen && Free(Decided(detected, held), held) <= ONE
    ensures c in commands && c.strategy == s
  {
    var entries := Decided(detected, held);
    var e := FreeHasShare(detected, held, s);
    assert !AllZero(entries);
    var baseLot := Decide(i, unit).value;
    DecidedIsLot(i, unit);
    var l := ShareHasLot(entries, baseLot, e);
    c := LotHasCommand(i, LotsOf(entries, baseLot).value, foundOpen, l);
  }

  /** A strategy without a position has a share. */
  lemma FreeHasShare(detected: seq<Strategy>, held: set<Strategy>, s: Strategy) returns (e: Entry)
    requires s in detected && s !in held && Free(Decided(detected, held), held) <= ONE
    ensures e in Decided(detected, held) && e.strategy == s && e.ratio != 0
  {
    var entries := Decided(detected, held);
    DecidedExactly(detected, held);
    var k :| 0 <= k < |entries| && entries[k].strategy == s;
    e := entries[k];
    EveryPartIsPositive(Free(entries, held));
  }

  lemma EveryPartIsPositive(n: int)
    requires 1 <= n <= ONE
    ensures 1 <= 10_000_000_000 / n <= ONE - (n - 1) * (10_000_000_000 / n)
  {
    EqualHead(n);
    Quotient(10_000_000_000, n);
  }

  lemma MarginsWithinBase(m: Positive, lots: seq<Allotted>, foundOpen: set<Strategy>, baseLot: int, bound: real)
    requires forall k :: 0 <= k < |lots| ==> lots[k].lot >= 0
    requires TotalOf(lots) <= baseLot && MarginOf(baseLot, m) <= bound
    ensures var commands := CommandsOf(m, lots, foundOpen);
            TotalMargin(commands) as real <= bound + 0.5 * |commands| as real
  {
    var commands := CommandsOf(m, lots, foundOpen);
    MarginsFollowLots(m, lots, foundOpen);
    WithinMore(TotalMargin(commands), |commands|, TotalOf(lots), baseLot, m, bound);
  }

  lemma WithinMore(margins: int, count: nat, units: int, more: int, m: Positive, bound: real)
    requires Within(margins, count, units, m) && units <= more && MarginOf(more, m) <= bound
    ensures margins as real <= bound + 0.5 * count as real
  {
    MulOrder(units as real, more as real, m);
  }

  lemma PerTarget(cost: real, capital: real, extra: real, target: Positive)
    requires cost * target <= capital + extra * target
    ensures cost <= capital / target + extra
  {
    DivideMultiply(capital, target);
    assert (capital / target + extra) * target == capital + extra * target;
    MulOrder(cost, capital / target + extra, target);
  }

  lemma BaseMarginIsBounded(i: Input, unit: Positive)
    requires WholeUnit(unit) && i.quoteIsJpy
    ensures MarginOf(Decide(i, unit).value, MarginPerUnit(i)) <= BaseMargin(i, unit)
  {
    var lot := Decide(i, unit).value;
    LotBounds(i, unit);
    CostOf(i, lot as real);
    if ReachesHundred(i, unit) {
      WithinBase(i, unit, lot as real * i.rate * i.marginRate, Slack(unit) * i.rate * i.marginRate);
    }
  }

  lemma WithinBase(i: Input, unit: Positive, cost: real, extra: real)
    requires cost * i.target <= i.capital + extra * i.target && extra == Slack(unit) * i.rate * i.marginRate
    ensures cost <= BaseMargin(i, unit)
  {
    PerTarget(cost, i.capital, extra, i.target);
  }
}
