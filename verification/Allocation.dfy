/**
 Ratios cut off at ten digits, their allocation over strategies, and the lots that come of it.
 A ratio is counted in units of ten to the minus ten, a lot in currency units.
 */
module Allocation {
  import opened Outcomes

  const ONE := 10_000_000_000            // the ratio 1
  const EPSILON := 10                    // 1e-9, the slack of the sum check
  const MIN_LOT := 100
  const MAX_LOT := 500_000

  type Ratio = u: int | 0 <= u <= 10_000_000_000
  type Strategy = string

  datatype Refusal = BadRatio | BadSum | BadLot

  // ---------------------------------------------------------------- Ratio

  /** Decimal division keeps 20 digits and rounds half up; then everything past the tenth is cut off. */
  function DivideOne(n: int): Result<Ratio, Refusal> {
    if n <= 0 then Err(BadRatio)
    else if n == 1 then Ok(ONE)
    else
      var twenty := (200_000_000_000_000_000_000 + n) / (2 * n);
      DivideOneFits(n);
      Ok(twenty / 10_000_000_000)
  }

  /** Rounding at the twentieth digit never carries into the tenth: the result is one over n, cut off. */
  lemma DivideOneFits(n: int)
    requires n >= 1
    ensures (200_000_000_000_000_000_000 + n) / (2 * n) / 10_000_000_000 == 10_000_000_000 / n
    ensures 0 <= 10_000_000_000 / n <= 10_000_000_000
  {
    var a := 10_000_000_000 / n;
    var twenty := (200_000_000_000_000_000_000 + n) / (2 * n);
    Quotient(10_000_000_000, n);
    Quotient(200_000_000_000_000_000_000 + n, 2 * n);
    assert a * n <= 10_000_000_000 < a * n + n;
    assert twenty * (2 * n) <= 200_000_000_000_000_000_000 + n < twenty * (2 * n) + 2 * n;
    QuotientBounds(n, a, twenty);
  }

  lemma Quotient(x: int, d: int)
    requires d > 0 && x >= 0
    ensures x / d * d <= x < x / d * d + d
    ensures 0 <= x / d
  {
    assert x == x / d * d + x % d;
  }

  lemma QuotientBounds(n: int, a: int, twenty: int)
    requires n >= 1 && a >= 0
    requires a * n <= 10_000_000_000 < a * n + n
    requires twenty * (2 * n) <= 200_000_000_000_000_000_000 + n < twenty * (2 * n) + 2 * n
    ensures twenty / 10_000_000_000 == a && a <= 10_000_000_000
  {
    var t, an := twenty * n, a * n;
    assert twenty * (2 * n) == 2 * t;
    assert (twenty + 1) * n == t + n && (a + 1) * n == an + n;
    Reorder(a, n);
    Reorder(a + 1, n);
    MulCancel(twenty + 1, a * 10_000_000_000, n);
    if n < 20_000_000_000 {
      MulCancel((a + 1) * 10_000_000_000, twenty, n);
    } else {
      MulCancel(1, a, n);
      MulCancel(10_000_000_000, twenty, n);
    }
    MulMono(1, n, a);
  }

  lemma MulCancel(x: int, y: int, n: int)
    requires n >= 1 && x * n > y * n
    ensures x > y
  {
    if x <= y { MulMono(x, y, n); }
  }

  lemma MulMono(x: int, y: int, m: int)
    requires x <= y && m >= 0
    ensures x * m <= y * m && m * x <= m * y
  {
  }

  lemma Reorder(a: int, n: int)
    ensures a * 10_000_000_000 * n == a * n * 10_000_000_000
  {
  }

  /** `1 - k * parts`; refused when that is no ratio. */
  function ComplementOf(parts: Ratio, k: int): Result<Ratio, Refusal> {
    if k < 0 then Err(BadRatio)
    else if ONE - k * parts < 0 || ONE - k * parts > ONE then Err(BadRatio)
    else Ok(ONE - k * parts)
  }

  /** Units are whole hundreds within the broker's limits. */
  predicate IsLot(units: int) {
    MIN_LOT <= units <= MAX_LOT && units % 100 == 0
  }

  /** The share of a lot, cut off to hundreds. */
  function ShareOf(lot: int, ratio: Ratio): int {
    lot * ratio / 1_000_000_000_000 * 100
  }

  function ApplyTo(ratio: Ratio, lot: int): Result<int, Refusal> {
    if IsLot(ShareOf(lot, ratio)) then Ok(ShareOf(lot, ratio)) else Err(BadLot)
  }

  lemma ShareBounds(lot: int, ratio: Ratio)
    requires lot >= 0
    ensures 0 <= ShareOf(lot, ratio) && ShareOf(lot, ratio) % 100 == 0
    ensures ShareOf(lot, ratio) * 10_000_000_000 <= lot * ratio < (ShareOf(lot, ratio) + 100) * 10_000_000_000
    ensures ShareOf(lot, ratio) <= lot
  {
    var p := lot * ratio;
    assert 0 <= p <= lot * 10_000_000_000 by { MulMono(ratio, 10_000_000_000, lot); MulMono(0, ratio, lot); }
  }

  /** A share exists exactly when it comes to a hundred units. */
  lemma ApplyToSucceedsExactly(ratio: Ratio, lot: int)
    requires IsLot(lot)
    ensures ApplyTo(ratio, lot).Ok? <==> lot * ratio >= 1_000_000_000_000
  {
    ShareBounds(lot, ratio);
  }

  // ---------------------------------------------------------------- LotAllocation

  datatype Entry = Entry(strategy: Strategy, ratio: Ratio)

  function SumOf(entries: seq<Entry>): int {
    if entries == [] then 0 else SumOf(entries[..|entries| - 1]) + entries[|entries| - 1].ratio
  }

  predicate AllZero(entries: seq<Entry>) {
    forall i :: 0 <= i < |entries| ==> entries[i].ratio == 0
  }

  /** Accepted: all suppressed, or the ratios sum to 1 within the slack. */
  predicate Accepted(entries: seq<Entry>) {
    AllZero(entries) || -EPSILON <= SumOf(entries) - ONE <= EPSILON
  }

  method CheckAllocation(entries: seq<Entry>) returns (r: Result<(), Refusal>)
    ensures r.Ok? <==> Accepted(entries)
    ensures r.Ok? <==> (forall i :: 0 <= i < |entries| ==> entries[i].ratio == 0)
                       || 9_999_999_990 <= SumOf(entries) <= 10_000_000_010
  {
    var sum, allZero := 0, true;
    for i := 0 to |entries|
      invariant sum == SumOf(entries[..i])
      invariant allZero <==> AllZero(entries[..i])
    {
      assert entries[..i + 1][..i] == entries[..i];
      sum := sum + entries[i].ratio;
      if entries[i].ratio != 0 {
        assert entries[..i + 1][i].ratio != 0;
        allZero := false;
      }
    }
    assert entries[..|entries|] == entries;
    if !allZero && !(-EPSILON <= sum - ONE <= EPSILON) { return Err(BadSum); }
    r := Ok(());
  }

  datatype Allotted = Allotted(strategy: Strategy, lot: int)

  /** Suppressed strategies get nothing; a share below a hundred units fails the whole allocation. */
  function LotsOf(entries: seq<Entry>, baseLot: int): Result<seq<Allotted>, Refusal> {
    if entries == [] then Ok([])
    else
      var e := entries[|entries| - 1];
      match LotsOf(entries[..|entries| - 1], baseLot)
      case Err(refusal) => Err(refusal)
      case Ok(before) =>
        if e.ratio == 0 then Ok(before)
        else
          match ApplyTo(e.ratio, baseLot)
          case Err(refusal) => Err(refusal)
          case Ok(lot) => Ok(before + [Allotted(e.strategy, lot)])
  }

  function TotalOf(lots: seq<Allotted>): int {
    if lots == [] then 0 else TotalOf(lots[..|lots| - 1]) + lots[|lots| - 1].lot
  }

  method FromAllocation(entries: seq<Entry>, baseLot: int) returns (r: Result<seq<Allotted>, Refusal>)
    ensures r == LotsOf(entries, baseLot)
  {
    var lots := [];
    for i := 0 to |entries|
      invariant LotsOf(entries[..i], baseLot) == Ok(lots)
    {
      assert entries[..i + 1][..i] == entries[..i];
      var e := entries[i];
      if e.ratio != 0 {
        var lot := ApplyTo(e.ratio, baseLot);
        if lot.Err? {
          LotsStop(entries, baseLot, i + 1, lot.error);
          return Err(lot.error);
        }
        lots := lots + [Allotted(e.strategy, lot.value)];
      }
    }
    assert entries[..|entries|] == entries;
    r := Ok(lots);
  }

  lemma {:induction false} LotsStop(entries: seq<Entry>, baseLot: int, k: nat, refusal: Refusal)
    requires k <= |entries| && LotsOf(entries[..k], baseLot) == Err(refusal)
    ensures LotsOf(entries, baseLot) == Err(refusal)
    decreases |entries| - k
  {
    if k == |entries| {
      assert entries[..k] == entries;
    } else {
      assert entries[..k + 1][..k] == entries[..k];
      LotsStop(entries, baseLot, k + 1, refusal);
    }
  }

  /** The entry's share of the base lot, cut off to hundreds. */
  predicate ShareFits(l: Allotted, e: Entry, baseLot: int) {
    && l.strategy == e.strategy && e.ratio != 0 && l.lot % 100 == 0
    && l.lot * ONE <= baseLot * e.ratio < (l.lot + 100) * ONE
  }

  lemma OneShare(e: Entry, baseLot: int)
    requires baseLot >= 0 && e.ratio != 0
    ensures ShareFits(Allotted(e.strategy, ShareOf(baseLot, e.ratio)), e, baseLot)
  {
    ShareBounds(baseLot, e.ratio);
  }

  /** Every lot is the share of an entry that is not suppressed. */
  lemma {:induction false} LotIsShare(entries: seq<Entry>, baseLot: int, l: Allotted) returns (e: Entry)
    requires baseLot >= 0 && LotsOf(entries, baseLot).Ok? && l in LotsOf(entries, baseLot).value
    ensures e in entries && ShareFits(l, e, baseLot)
  {
    var init := entries[..|entries| - 1];
    e := entries[|entries| - 1];
    if l in LotsOf(init, baseLot).value {
      e := LotIsShare(init, baseLot, l);
    } else {
      OneShare(e, baseLot);
    }
  }

  /** And every such entry has its lot. */
  lemma {:induction false} ShareHasLot(entries: seq<Entry>, baseLot: int, e: Entry) returns (l: Allotted)
    requires baseLot >= 0 && LotsOf(entries, baseLot).Ok? && e in entries && e.ratio != 0
    ensures l in LotsOf(entries, baseLot).value && ShareFits(l, e, baseLot)
  {
    var init := entries[..|entries| - 1];
    if e in init {
      l := ShareHasLot(init, baseLot, e);
    } else {
      assert e == entries[|entries| - 1];
      OneShare(e, baseLot);
      l := Allotted(e.strategy, ShareOf(baseLot, e.ratio));
    }
  }

  method TotalLot(lots: seq<Allotted>) returns (total: int)
    ensures total == TotalOf(lots)
  {
    total := 0;
    for i := 0 to |lots|
      invariant total == TotalOf(lots[..i])
    {
      assert lots[..i + 1][..i] == lots[..i];
      total := total + lots[i].lot;
    }
    assert lots[..|lots|] == lots;
  }

  // ---------------------------------------------------------------- The lots fit the base lot

  /** Lots against the part of the base lot their ratios come to: no more, and less than a hundred each short. */
  predicate Fits(total: int, count: int, part: int) {
    && 0 <= total && total % 100 == 0
    && total * 10_000_000_000 <= part <= (total + 100 * count) * 10_000_000_000
    && (count > 0 ==> part < (total + 100 * count) * 10_000_000_000)
  }

  lemma OneMoreShare(total: int, count: int, sum: int, baseLot: int, ratio: Ratio)
    requires baseLot >= 0 && Fits(total, count, baseLot * sum)
    ensures Fits(total + ShareOf(baseLot, ratio), count + 1, baseLot * (sum + ratio))
    ensures ratio == 0 ==> Fits(total, count, baseLot * (sum + ratio))
  {
    Distributes(baseLot, sum, ratio);
    ShareBounds(baseLot, ratio);
  }

  /** What the last entry adds. */
  lemma LotsOneMore(entries: seq<Entry>, baseLot: int)
    requires entries != [] && LotsOf(entries, baseLot).Ok?
    ensures var init, e := entries[..|entries| - 1], entries[|entries| - 1];
            && LotsOf(init, baseLot).Ok? && SumOf(entries) == SumOf(init) + e.ratio
            && var before, lots := LotsOf(init, baseLot).value, LotsOf(entries, baseLot).value;
               if e.ratio == 0 then lots == before
               else |lots| == |before| + 1 && TotalOf(lots) == TotalOf(before) + ShareOf(baseLot, e.ratio)
  {
    var e, before := entries[|entries| - 1], LotsOf(entries[..|entries| - 1], baseLot).value;
    OneMoreAllotted(before, Allotted(e.strategy, ShareOf(baseLot, e.ratio)));
  }

  lemma OneMoreAllotted(lots: seq<Allotted>, lot: Allotted)
    ensures TotalOf(lots + [lot]) == TotalOf(lots) + lot.lot
  {
    assert (lots + [lot])[..|lots|] == lots;
  }

  lemma {:induction false} SharesFit(entries: seq<Entry>, baseLot: int)
    requires baseLot >= 0 && LotsOf(entries, baseLot).Ok?
    ensures var lots := LotsOf(entries, baseLot).value;
            Fits(TotalOf(lots), |lots|, baseLot * SumOf(entries))
  {
    if entries != [] {
      var init, e := entries[..|entries| - 1], entries[|entries| - 1];
      SharesFit(init, baseLot);
      LotsOneMore(entries, baseLot);
      var before := LotsOf(init, baseLot).value;
      OneMoreShare(TotalOf(before), |before|, SumOf(init), baseLot, e.ratio);
    }
  }

  lemma Distributes(x: int, y: int, z: int)
    ensures x * (y + z) == x * y + x * z
  {
  }

  lemma {:induction false} AllZeroSum(entries: seq<Entry>)
    requires AllZero(entries)
    ensures SumOf(entries) == 0
  {
    if entries != [] { AllZeroSum(entries[..|entries| - 1]); }
  }

  /**
   For every allocation that is accepted, even one whose ratios sum to a little more than 1, and every
   base lot, the strategy lots come to at most the base lot: the cap on the total never fires.
   */
  lemma LotsFitBaseLot(entries: seq<Entry>, baseLot: int)
    requires Accepted(entries) && IsLot(baseLot) && LotsOf(entries, baseLot).Ok?
    ensures TotalOf(LotsOf(entries, baseLot).value) <= baseLot <= MAX_LOT
  {
    SharesFit(entries, baseLot);
    if AllZero(entries) { AllZeroSum(entries); }
    var total, sum := TotalOf(LotsOf(entries, baseLot).value), SumOf(entries);
    MulMono(sum, 10_000_000_010, baseLot);
    assert total * 10_000_000_000 <= baseLot * 10_000_000_010;
    assert total < baseLot + 100;
  }

  // ---------------------------------------------------------------- Equal weights

  /** Equal ratios cut off, the last one takes the rest. */
  function EqualWeights(n: nat): seq<Ratio>
    requires n >= 1
  {
    EqualHead(n);
    seq(n - 1, i => if n == 1 then ONE else 10_000_000_000 / n)
      + [if n == 1 then ONE else ONE - (n - 1) * (10_000_000_000 / n)]
  }

  lemma EqualHead(n: int)
    requires n >= 1
    ensures 0 <= 10_000_000_000 / n <= 10_000_000_000
    ensures 10_000_000_000 / n <= ONE - (n - 1) * (10_000_000_000 / n) <= ONE
  {
    var head := 10_000_000_000 / n;
    Quotient(10_000_000_000, n);
    assert head * n == head + (n - 1) * head;
    MulMono(0, n - 1, head);
  }

  /** Never refused: the complement of n - 1 equal parts is a ratio. */
  method ComputeEqualWeights(n: nat) returns (r: Result<seq<Ratio>, Refusal>)
    requires n >= 1
    ensures r == Ok(EqualWeights(n))
  {
    EqualHead(n);
    if n == 1 {
      assert EqualWeights(1) == [ONE];
      return Ok([ONE]);
    }
    DivideOneFits(n);
    var head := DivideOne(n);
    MulMono(0, n - 1, head.value);
    var last := ComplementOf(head.value, n - 1);
    var weights: seq<Ratio> := [];
    for i := 0 to n - 1
      invariant weights == seq(i, _ => 10_000_000_000 / n)
    {
      weights := weights + [head.value];
    }
    weights := weights + [last.value];
    assert weights == EqualWeights(n);
    r := Ok(weights);
  }

  function Weighted(strategies: seq<Strategy>, weights: seq<Ratio>): seq<Entry>
    requires |strategies| == |weights|
  {
    seq(|strategies|, i requires 0 <= i < |strategies| => Entry(strategies[i], weights[i]))
  }

  function Suppressed(strategies: seq<Strategy>): seq<Entry> {
    seq(|strategies|, i requires 0 <= i < |strategies| => Entry(strategies[i], 0))
  }

  function Held(detected: seq<Strategy>, held: set<Strategy>, isHeld: bool): seq<Strategy> {
    if detected == [] then []
    else
      var before, s := Held(detected[..|detected| - 1], held, isHeld), detected[|detected| - 1];
      if (s in held) == isHeld then before + [s] else before
  }

  /** Sorted out by the positions held: each strategy is on one side, in the order detected. */
  lemma {:induction false} HeldExactly(detected: seq<Strategy>, held: set<Strategy>, s: Strategy)
    ensures s in Held(detected, held, true) <==> s in detected && s in held
    ensures s in Held(detected, held, false) <==> s in detected && s !in held
    ensures |Held(detected, held, true)| + |Held(detected, held, false)| == |detected|
  {
    if detected != [] {
      HeldExactly(detected[..|detected| - 1], held, s);
      assert detected == detected[..|detected| - 1] + [detected[|detected| - 1]];
    }
  }

  /** Strategies already holding a position are suppressed, the others share equally. */
  function Decided(detected: seq<Strategy>, held: set<Strategy>): seq<Entry> {
    var eligible := Held(detected, held, false);
    if eligible == [] then Suppressed(detected)
    else Weighted(eligible, EqualWeights(|eligible|)) + Suppressed(Held(detected, held, true))
  }

  lemma WeightsLength(n: nat)
    requires n >= 1
    ensures |EqualWeights(n)| == n
  {
  }

  /** `decide`; the sum check behind it never fails. */
  method Decide(detected: seq<Strategy>, held: set<Strategy>) returns (r: Result<seq<Entry>, Refusal>)
    ensures r == Ok(Decided(detected, held))
  {
    if |detected| == 0 { return Ok([]); }
    var suppressed, eligible := [], [];
    for i := 0 to |detected|
      invariant suppressed == Held(detected[..i], held, true) && eligible == Held(detected[..i], held, false)
    {
      assert detected[..i + 1][..i] == detected[..i];
      if detected[i] in held {
        suppressed := suppressed + [detected[i]];
      } else {
        eligible := eligible + [detected[i]];
      }
    }
    assert detected[..|detected|] == detected;
    if |eligible| == 0 { return Ok(Suppressed(detected)); }
    WeightsLength(|eligible|);
    var ratios := ComputeEqualWeights(|eligible|);
    var entries: seq<Entry> := [];
    for i := 0 to |eligible|
      invariant entries == Weighted(eligible, ratios.value)[..i]
    {
      entries := entries + [Entry(eligible[i], ratios.value[i])];
    }
    for i := 0 to |suppressed|
      invariant entries == Weighted(eligible, ratios.value) + Suppressed(suppressed)[..i]
    {
      entries := entries + [Entry(suppressed[i], 0)];
    }
    assert entries == Decided(detected, held);
    EqualWeightsSumToOne(detected, held);
    var checked := CheckAllocation(entries);
    r := Ok(entries);
  }

  lemma {:induction false} SumAppends(xs: seq<Entry>, ys: seq<Entry>)
    ensures SumOf(xs + ys) == SumOf(xs) + SumOf(ys)
  {
    if ys == [] {
      assert xs + ys == xs;
    } else {
      SumAppends(xs, ys[..|ys| - 1]);
      assert (xs + ys)[..|xs + ys| - 1] == xs + ys[..|ys| - 1];
    }
  }

  lemma {:induction false} ConstantSum(entries: seq<Entry>, c: int)
    requires forall i :: 0 <= i < |entries| ==> entries[i].ratio == c
    ensures SumOf(entries) == |entries| * c
  {
    if entries != [] {
      ConstantSum(entries[..|entries| - 1], c);
      assert |entries| * c == (|entries| - 1) * c + c;
    }
  }

  /** Equal weights sum to exactly 1, so they are always accepted. */
  lemma EqualWeightsSumToOne(detected: seq<Strategy>, held: set<Strategy>)
    ensures Accepted(Decided(detected, held))
    ensures SumOf(Decided(detected, held)) == if Held(detected, held, false) == [] then 0 else ONE
  {
    var eligible := Held(detected, held, false);
    if eligible == [] {
      AllZeroSum(Suppressed(detected));
    } else {
      var n := |eligible|;
      WeightsLength(n);
      var shares, rest := Weighted(eligible, EqualWeights(n)), Suppressed(Held(detected, held, true));
      SumAppends(shares, rest);
      AllZeroSum(rest);
      if n > 1 { ConstantSum(shares[..n - 1], 10_000_000_000 / n); }
    }
  }

  /** How many entries are of strategies without a position. */
  function Free(entries: seq<Entry>, held: set<Strategy>): nat {
    if entries == [] then 0
    else Free(entries[..|entries| - 1], held) + if entries[|entries| - 1].strategy in held then 0 else 1
  }

  lemma {:induction false} FreeFirst(entries: seq<Entry>, held: set<Strategy>, n: nat)
    requires n <= |entries|
    requires forall k :: 0 <= k < |entries| ==> (entries[k].strategy in held <==> k >= n)
    ensures Free(entries, held) == n
  {
    if entries != [] {
      FreeFirst(entries[..|entries| - 1], held, if n < |entries| then n else n - 1);
    }
  }

  /** The free strategies first, then those that hold a position. */
  lemma DecidedInOrder(detected: seq<Strategy>, held: set<Strategy>)
    ensures var entries, n := Decided(detected, held), |Held(detected, held, false)|;
            && |entries| == |detected| && n <= |entries|
            && (forall k :: 0 <= k < |entries| ==> (entries[k].strategy in held <==> k >= n))
            && (forall s :: s in detected <==> exists k :: 0 <= k < |entries| && entries[k].strategy == s)
  {
    var entries, eligible, rest := Decided(detected, held), Held(detected, held, false), Held(detected, held, true);
    HeldExactly(detected, held, "");
    forall k | 0 <= k < |eligible| ensures eligible[k] !in held { HeldExactly(detected, held, eligible[k]); }
    forall k | 0 <= k < |rest| ensures rest[k] in held { HeldExactly(detected, held, rest[k]); }
    if eligible != [] { WeightsLength(|eligible|); }
    forall k | 0 <= k < |entries| ensures entries[k].strategy in held <==> k >= |eligible| {
      if eligible == [] { HeldExactly(detected, held, detected[k]); }
    }
    forall s ensures s in detected <==> exists k :: 0 <= k < |entries| && entries[k].strategy == s {
      DecidedNames(detected, held, s);
    }
  }

  lemma DecidedNames(detected: seq<Strategy>, held: set<Strategy>, s: Strategy)
    ensures s in detected <==> exists k :: 0 <= k < |Decided(detected, held)| && Decided(detected, held)[k].strategy == s
  {
    var entries, eligible, rest := Decided(detected, held), Held(detected, held, false), Held(detected, held, true);
    HeldExactly(detected, held, s);
    if eligible == [] {
      assert forall k :: 0 <= k < |detected| ==> entries[k].strategy == detected[k];
    } else {
      WeightsLength(|eligible|);
      assert forall k :: 0 <= k < |eligible| ==> entries[k].strategy == eligible[k];
      assert forall k :: 0 <= k < |rest| ==> entries[|eligible| + k].strategy == rest[k];
      if s in rest {
        var k :| 0 <= k < |rest| && rest[k] == s;
        assert entries[|eligible| + k].strategy == s;
      }
    }
  }

  /**
   Who gets what: every detected strategy has an entry and no other has one; one that holds a position gets
   nothing; of the n others each gets one n-th, cut off at ten digits, but the last one what is left to 1.
   */
  lemma DecidedExactly(detected: seq<Strategy>, held: set<Strategy>)
    ensures var entries, n := Decided(detected, held), Free(Decided(detected, held), held);
            && |entries| == |detected|
            && (forall s :: s in detected <==> exists k :: 0 <= k < |entries| && entries[k].strategy == s)
            && (forall k :: 0 <= k < |entries| && entries[k].strategy in held ==> entries[k].ratio == 0)
            && (forall k :: 0 <= k < |entries| && entries[k].strategy !in held ==>
                  k < n && entries[k].ratio == if k < n - 1 then 10_000_000_000 / n
                                               else ONE - (n - 1) * (10_000_000_000 / n))
  {
    var entries, n := Decided(detected, held), |Held(detected, held, false)|;
    DecidedInOrder(detected, held);
    FreeFirst(entries, held, n);
    if n > 0 { WeightsLength(n); }
  }

  /** Equal weights: when the shares exist, less than a hundred units per strategy are lost. */
  lemma EqualWeightsLoseLittle(detected: seq<Strategy>, held: set<Strategy>, baseLot: int)
    requires IsLot(baseLot)
    ensures Held(detected, held, false) != [] && LotsOf(Decided(detected, held), baseLot).Ok? ==>
              var lots := LotsOf(Decided(detected, held), baseLot).value;
              baseLot - 100 * |lots| < TotalOf(lots) <= baseLot
  {
    if Held(detected, held, false) != [] && LotsOf(Decided(detected, held), baseLot).Ok? {
      EqualWeightsSumToOne(detected, held);
      SharesFit(Decided(detected, held), baseLot);
      LotsFitBaseLot(Decided(detected, held), baseLot);
    }
  }

  /** The lots exist exactly when every share that is not suppressed comes to a hundred units. */
  lemma {:induction false} LotsExistExactly(entries: seq<Entry>, baseLot: int)
    requires IsLot(baseLot)
    ensures LotsOf(entries, baseLot).Ok? <==>
            forall i :: 0 <= i < |entries| && entries[i].ratio != 0 ==> baseLot * entries[i].ratio >= 1_000_000_000_000
  {
    if entries != [] {
      var init, e := entries[..|entries| - 1], entries[|entries| - 1];
      LotsExistExactly(init, baseLot);
      ApplyToSucceedsExactly(e.ratio, baseLot);
      assert forall i :: 0 <= i < |init| ==> entries[i] == init[i];
    }
  }
}
