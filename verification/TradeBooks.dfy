/**
 What both backtest engines keep while they run: open positions, capital at entry, trade
 records and compounding equity.
 */
module TradeBooks {
  import opened Outcomes

  /** An open backtest position. Ids are never reused. */
  datatype Holding = Holding(id: nat, lot: real, openedAt: int)

  datatype Trade = Trade(positionId: nat, tradeSeq: nat, lot: real, pnlPips: real, pnlAmount: real,
                         capitalAtEntry: real, equityAfter: real, openedAt: int, closedAt: int)

  datatype Params = Params(initialCapital: real, quoteIsJpy: bool)

  /** `entered` is every position ever opened, in order. Equity is absent without compounding. */
  datatype Books = Books(positions: seq<Holding>, capitalAtEntry: map<nat, real>, trades: seq<Trade>, tradeSeq: nat,
                         equity: Option<real>, entered: seq<Holding>)

  function NewBooks(equity: Option<real>): Books {
    Books([], map[], [], 0, equity, [])
  }

  /** Yen per pip and unit; other quotes are converted at a fixed 130 yen to the dollar. */
  function PipValue(p: Params): real {
    if p.quoteIsJpy then 0.01 else 0.0001 * 130.0
  }

  function PnlAmount(p: Params, pips: real, lot: real): real {
    pips * PipValue(p) * lot
  }

  function Capital(b: Books, p: Params): real {
    if b.equity.Some? then b.equity.value else p.initialCapital
  }

  function Entered(b: Books, p: Params, h: Holding): Books {
    b.(positions := b.positions + [h], capitalAtEntry := b.capitalAtEntry[h.id := Capital(b, p)], entered := b.entered + [h])
  }

  function TradeOf(b: Books, p: Params, h: Holding, pips: real, closedAt: int): Trade {
    Trade(h.id, b.tradeSeq, h.lot, pips, PnlAmount(p, pips, h.lot),
          if h.id in b.capitalAtEntry then b.capitalAtEntry[h.id] else p.initialCapital,
          if b.equity.Some? then b.equity.value + PnlAmount(p, pips, h.lot) else p.initialCapital, h.openedAt, closedAt)
  }

  /** The record of a closed position; the position is still listed. */
  function Recorded(b: Books, p: Params, h: Holding, pips: real, closedAt: int): Books {
    b.(trades := b.trades + [TradeOf(b, p, h, pips, closedAt)], tradeSeq := b.tradeSeq + 1,
       equity := if b.equity.Some? then Some(b.equity.value + PnlAmount(p, pips, h.lot)) else None)
  }

  function Without(hs: seq<Holding>, id: nat): seq<Holding> {
    if hs == [] then []
    else if hs[0].id == id then Without(hs[1..], id) else [hs[0]] + Without(hs[1..], id)
  }

  function Exited(b: Books, p: Params, h: Holding, pips: real, closedAt: int): Books {
    var r := Recorded(b, p, h, pips, closedAt);
    r.(positions := Without(r.positions, h.id), capitalAtEntry := r.capitalAtEntry - {h.id})
  }

  /** Every position still open is closed at the end of the period, in order. */
  function ForceClosed(b: Books, p: Params, hs: seq<Holding>, pips: nat -> real, closedAt: int): Books {
    if hs == [] then b
    else
      var last := hs[|hs| - 1];
      Recorded(ForceClosed(b, p, hs[..|hs| - 1], pips, closedAt), p, last, pips(last.id), closedAt)
  }

  function Ended(b: Books, p: Params, pips: nat -> real, closedAt: int): Books {
    ForceClosed(b, p, b.positions, pips, closedAt).(positions := [])
  }

  class EngineBooks {
    const params: Params
    var positions: seq<Holding>
    var capitalAtEntry: map<nat, real>
    var trades: seq<Trade>
    var tradeSeq: nat
    var equity: Option<real>
    ghost var entered: seq<Holding>
    var nextId: nat

    ghost predicate Valid()
      reads this
    {
      nextId == |entered|
    }

    ghost function State(): Books
      reads this
    {
      Books(positions, capitalAtEntry, trades, tradeSeq, equity, entered)
    }

    constructor (params: Params, equity: Option<real>)
      ensures this.params == params && Valid() && State() == NewBooks(equity)
    {
      this.params, this.equity := params, equity;
      positions, capitalAtEntry, trades, tradeSeq, entered, nextId := [], map[], [], 0, [], 0;
    }

    method Enter(lot: real, openedAt: int)
      requires Valid()
      modifies this
      ensures Valid() && State() == Entered(old(State()), params, Holding(|old(entered)|, lot, openedAt))
      ensures positions == old(positions) + [Holding(|old(entered)|, lot, openedAt)]
      ensures trades == old(trades) && equity == old(equity)
    {
      var h := Holding(nextId, lot, openedAt);
      positions := positions + [h];
      capitalAtEntry := capitalAtEntry[h.id := if equity.Some? then equity.value else params.initialCapital];
      entered, nextId := entered + [h], nextId + 1;
    }

    method Record(h: Holding, pips: real, closedAt: int)
      requires Valid()
      modifies this
      ensures Valid() && State() == Recorded(old(State()), params, h, pips, closedAt)
      ensures AddsTrade(old(trades), trades, h, pips, closedAt) && trades[|trades| - 1].tradeSeq == old(tradeSeq)
      ensures var amount := pips * (if params.quoteIsJpy then 0.01 else 0.013) * h.lot;
              && trades[|trades| - 1].pnlAmount == amount
              && (old(equity).Some? ==> equity == Some(old(equity).value + amount)
                                        && trades[|trades| - 1].equityAfter == equity.value)
    {
      var amount := PnlAmount(params, pips, h.lot);
      if equity.Some? {
        equity := Some(equity.value + amount);
      }
      trades := trades + [Trade(h.id, tradeSeq, h.lot, pips, amount,
                                if h.id in capitalAtEntry then capitalAtEntry[h.id] else params.initialCapital,
                                if equity.Some? then equity.value else params.initialCapital, h.openedAt, closedAt)];
      tradeSeq := tradeSeq + 1;
    }

    method Exit(h: Holding, pips: real, closedAt: int)
      requires Valid()
      modifies this
      ensures Valid() && State() == Exited(old(State()), params, h, pips, closedAt)
    {
      Record(h, pips, closedAt);
      positions := Without(positions, h.id);
      capitalAtEntry := capitalAtEntry - {h.id};
    }

    method CloseAll(pips: nat -> real, closedAt: int)
      requires Valid()
      modifies this
      ensures Valid() && State() == Ended(old(State()), params, pips, closedAt)
    {
      for i := 0 to |positions|
        invariant Valid() && positions == old(positions)
        invariant State() == ForceClosed(old(State()), params, positions[..i], pips, closedAt)
      {
        assert positions[..i + 1][..i] == positions[..i];
        Record(positions[i], pips(positions[i].id), closedAt);
      }
      assert positions[..|positions|] == positions;
      positions := [];
    }
  }

  /** The record of a position closed at `at` with the given pips. */
  predicate ClosesAt(t: Trade, h: Holding, pips: real, at: int) {
    t.positionId == h.id && t.lot == h.lot && t.openedAt == h.openedAt && t.pnlPips == pips && t.closedAt == at
  }

  /** One more trade, and nothing else in the list moves. */
  predicate AddsTrade(before: seq<Trade>, after: seq<Trade>, h: Holding, pips: real, at: int) {
    |after| == |before| + 1 && after[..|before|] == before && ClosesAt(after[|before|], h, pips, at)
  }

  // ---------------------------------------------------------------- Equity

  function CapitalBefore(b: Books, base: real, i: nat): real
    requires i <= |b.trades|
  {
    if i == 0 then base else b.trades[i - 1].equityAfter
  }

  /** Trade `i` is the `i`-th entry, starts from the capital the trade before left, and adds its own amount to it. */
  predicate TradeFits(b: Books, p: Params, base: real, i: nat)
    requires i < |b.trades| <= |b.entered|
  {
    var t := b.trades[i];
    && t.tradeSeq == i && t.positionId == b.entered[i].id && t.lot == b.entered[i].lot && t.openedAt == b.entered[i].openedAt
    && t.pnlAmount == t.pnlPips * (if p.quoteIsJpy then 0.01 else 0.013) * t.lot
    && t.capitalAtEntry == CapitalBefore(b, base, i)
    && t.equityAfter == if b.equity.Some? then t.capitalAtEntry + t.pnlAmount else base
  }

  /** At most one position, trades one-to-one with the entries before it, equity handed on from trade to trade. */
  ghost predicate Telescopes(b: Books, p: Params, base: real) {
    && b.tradeSeq == |b.trades| <= |b.entered| <= |b.trades| + 1
    && (forall i :: 0 <= i < |b.entered| ==> b.entered[i].id == i)
    && b.positions == b.entered[|b.trades|..]
    && (forall i :: 0 <= i < |b.trades| ==> TradeFits(b, p, base, i))
    && Capital(b, p) == CapitalBefore(b, base, |b.trades|)
    && (b.equity.None? ==> base == p.initialCapital)
    && (b.positions != [] ==> b.positions[0].id in b.capitalAtEntry
                              && b.capitalAtEntry[b.positions[0].id] == Capital(b, p))
  }

  lemma NewTelescopes(p: Params, equity: Option<real>)
    ensures Telescopes(NewBooks(equity), p, Capital(NewBooks(equity), p))
  {
  }

  lemma EntryKeepsTrades(b: Books, p: Params, base: real, h: Holding)
    requires |b.trades| <= |b.entered| && forall i :: 0 <= i < |b.trades| ==> TradeFits(b, p, base, i)
    ensures forall i :: 0 <= i < |b.trades| ==> TradeFits(Entered(b, p, h), p, base, i)
  {
    forall i | 0 <= i < |b.trades| ensures TradeFits(Entered(b, p, h), p, base, i) {
      assert TradeFits(b, p, base, i);
    }
  }

  lemma EntryTelescopes(b: Books, p: Params, base: real, lot: real, at: int)
    requires Telescopes(b, p, base) && b.positions == []
    ensures Telescopes(Entered(b, p, Holding(|b.entered|, lot, at)), p, base)
  {
    var h := Holding(|b.entered|, lot, at);
    EntryKeepsTrades(b, p, base, h);
    assert Entered(b, p, h).positions == [h] == Entered(b, p, h).entered[|b.trades|..];
  }

  lemma RecordFits(b: Books, p: Params, base: real, pips: real, at: int)
    requires Telescopes(b, p, base) && b.positions != []
    ensures var now := Recorded(b, p, b.positions[0], pips, at);
            && (forall i :: 0 <= i < |now.trades| ==> TradeFits(now, p, base, i))
            && Capital(now, p) == CapitalBefore(now, base, |now.trades|)
  {
    var now := Recorded(b, p, b.positions[0], pips, at);
    forall i | 0 <= i < |now.trades| ensures TradeFits(now, p, base, i) {
      if i < |b.trades| { assert TradeFits(b, p, base, i); }
    }
  }

  lemma ExitTelescopes(b: Books, p: Params, base: real, pips: real, at: int)
    requires Telescopes(b, p, base) && b.positions != []
    ensures var now := Exited(b, p, b.positions[0], pips, at);
            Telescopes(now, p, base) && now.positions == []
  {
    RecordFits(b, p, base, pips, at);
    var r, now := Recorded(b, p, b.positions[0], pips, at), Exited(b, p, b.positions[0], pips, at);
    assert b.positions[1..] == [] && Without(b.positions, b.positions[0].id) == Without(b.positions[1..], b.positions[0].id);
    assert now.positions == [] == now.entered[|now.trades|..];
    forall i | 0 <= i < |now.trades| ensures TradeFits(now, p, base, i) {
      assert TradeFits(r, p, base, i);
    }
  }

  lemma EndTelescopes(b: Books, p: Params, base: real, pips: nat -> real, at: int)
    requires Telescopes(b, p, base)
    ensures var now := Ended(b, p, pips, at);
            Telescopes(now, p, base) && now.positions == [] && |now.trades| == |now.entered| && now.entered == b.entered
  {
    var now := Ended(b, p, pips, at);
    if b.positions == [] {
      assert b.positions[..0] == [];
      forall i | 0 <= i < |now.trades| ensures TradeFits(now, p, base, i) {
        assert TradeFits(b, p, base, i);
      }
    } else {
      var last := pips(b.positions[0].id);
      RecordFits(b, p, base, last, at);
      var r := Recorded(b, p, b.positions[0], last, at);
      assert b.positions[..0] == [];
      assert ForceClosed(b, p, b.positions, pips, at) == r;
      forall i | 0 <= i < |now.trades| ensures TradeFits(now, p, base, i) {
        assert TradeFits(r, p, base, i);
      }
    }
  }

  /** The one open position becomes the last trade, closed as given; with none open there is no further trade. */
  predicate ClosesAll(b: Books, now: Books, pips: nat -> real, at: int) {
    && now.positions == [] && now.entered == b.entered
    && if b.positions == [] then now.trades == b.trades
       else AddsTrade(b.trades, now.trades, b.positions[0], pips(b.positions[0].id), at)
  }

  lemma EndClosesAll(b: Books, p: Params, pips: nat -> real, at: int)
    requires |b.positions| <= 1
    ensures ClosesAll(b, Ended(b, p, pips, at), pips, at)
  {
    if b.positions != [] {
      assert b.positions[..0] == [];
      assert ForceClosed(b, p, [], pips, at) == b;
    }
  }

  lemma WithoutOnly(h: Holding)
    ensures Without([h], h.id) == []
  {
    assert [h][1..] == [];
  }

  lemma ExitCloses(b: Books, p: Params, pips: real, at: int)
    requires |b.positions| == 1
    ensures var h, now := b.positions[0], Exited(b, p, b.positions[0], pips, at);
            now.positions == [] && now.entered == b.entered && AddsTrade(b.trades, now.trades, h, pips, at)
  {
    assert b.positions == [b.positions[0]];
    WithoutOnly(b.positions[0]);
  }

  function TotalAmount(trades: seq<Trade>): real {
    if trades == [] then 0.0 else TotalAmount(trades[..|trades| - 1]) + trades[|trades| - 1].pnlAmount
  }

  /** Compounding: the capital after `i` trades is the starting capital and the sum of their amounts. */
  lemma {:induction false} EquityIsSum(b: Books, p: Params, base: real, i: nat)
    requires Telescopes(b, p, base) && b.equity.Some? && i <= |b.trades|
    ensures CapitalBefore(b, base, i) == base + TotalAmount(b.trades[..i])
  {
    if i > 0 {
      EquityIsSum(b, p, base, i - 1);
      assert TradeFits(b, p, base, i - 1);
      assert b.trades[..i][..i - 1] == b.trades[..i - 1];
    }
  }

  lemma {:induction false} ForceKeepsCompounding(b: Books, p: Params, hs: seq<Holding>, pips: nat -> real, at: int)
    ensures ForceClosed(b, p, hs, pips, at).equity.Some? == b.equity.Some?
  {
    if hs != [] { ForceKeepsCompounding(b, p, hs[..|hs| - 1], pips, at); }
  }
}
