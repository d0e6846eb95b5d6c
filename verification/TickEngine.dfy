/** The backtest over ticks: rules at each confirmed bar, fills after the delay, exits before entries. */
module TickEngine {
  import opened Outcomes
  import opened TradeBooks
  import opened PendingOrders

  /** A tick and what the rules and the simulator would answer at it: which positions the exit rule
      wants closed, the lot the entry rule wants, the pips a position closed here makes. */
  datatype TickInput = TickInput(time: int, barConfirmed: bool, wantsExit: set<nat>, wantsEntry: Option<real>,
                                 pips: nat -> real)

  /** A filled order, kept to state when orders fill. */
  datatype Fill = Fill(acceptedAt: int, filledAt: int, atStreamEnd: bool)

  datatype State = State(orders: Orders, books: Books, fills: seq<Fill>, lastTime: Option<int>)

  function Start(equity: Option<real>): State {
    State(NO_ORDERS, NewBooks(equity), [], None)
  }

  function ExitsAccepted(o: Orders, delay: int, hs: seq<Holding>, t: TickInput): Result<Orders, Guard> {
    if hs == [] then Ok(o)
    else
      match ExitsAccepted(o, delay, hs[..|hs| - 1], t)
      case Err(guard) => Err(guard)
      case Ok(before) =>
        if hs[|hs| - 1].id in t.wantsExit then WithExit(before, delay, hs[|hs| - 1], t.time) else Ok(before)
  }

  /** The rules at a confirmed bar: exits first, then an entry if nothing is open or pending. */
  function RulesApplied(s: State, delay: int, t: TickInput): Result<Orders, Guard> {
    if !t.barConfirmed then Ok(s.orders)
    else
      match ExitsAccepted(s.orders, delay, s.books.positions, t)
      case Err(guard) => Err(guard)
      case Ok(o) =>
        if s.books.positions == [] && o.entry.None? && o.exit.None? && t.wantsEntry.Some?
        then WithEntry(o, delay, t.wantsEntry.value, t.time)
        else Ok(o)
  }

  function ExitFilled(s: State, p: Params, t: TickInput): State {
    if !ExitDue(s.orders, t.time) then s
    else
      var exit := s.orders.exit.value;
      s.(orders := s.orders.(exit := None),
         books := Exited(s.books, p, exit.position, t.pips(exit.position.id), t.time),
         fills := s.fills + [Fill(exit.acceptedAt, t.time, false)])
  }

  function EntryFilled(s: State, p: Params, t: TickInput): State {
    if !EntryDue(s.orders, t.time) then s
    else
      var entry := s.orders.entry.value;
      s.(orders := s.orders.(entry := None),
         books := Entered(s.books, p, Holding(|s.books.entered|, entry.lot, t.time)),
         fills := s.fills + [Fill(entry.acceptedAt, t.time, false)])
  }

  function Step(s: State, p: Params, delay: int, t: TickInput): Result<State, Guard> {
    match RulesApplied(s, delay, t)
    case Err(guard) => Err(guard)
    case Ok(o) => Ok(EntryFilled(ExitFilled(s.(orders := o), p, t), p, t).(lastTime := Some(t.time)))
  }

  function Run(s: State, p: Params, delay: int, ticks: seq<TickInput>): Result<State, Guard> {
    if ticks == [] then Ok(s)
    else
      match Run(s, p, delay, ticks[..|ticks| - 1])
      case Err(guard) => Err(guard)
      case Ok(before) => Step(before, p, delay, ticks[|ticks| - 1])
  }

  /** After the last tick: the pending exit fills, the pending entry is cancelled, the rest is closed. */
  function Settled(s: State, p: Params, t: TickInput): State {
    if s.orders.exit.None? then s.(orders := NO_ORDERS)
    else
      var exit := s.orders.exit.value;
      s.(orders := NO_ORDERS,
         books := Exited(s.books, p, exit.position, t.pips(exit.position.id), t.time),
         fills := s.fills + [Fill(exit.acceptedAt, t.time, true)])
  }

  function Finished(s: State, p: Params, ticks: seq<TickInput>): State {
    if ticks == [] then s
    else
      var last := ticks[|ticks| - 1];
      var settled := Settled(s, p, last);
      settled.(books := Ended(settled.books, p, last.pips, last.time))
  }

  class TickEngine {
    const pending: PendingOrderManager
    const params: Params

    constructor (pending: PendingOrderManager, params: Params)
      ensures this.pending == pending && this.params == params
    {
      this.pending, this.params := pending, params;
    }

    /** The rules at a confirmed bar. */
    method ApplyRules(books: EngineBooks, t: TickInput) returns (r: Result<(), Guard>)
      requires books.Valid()
      modifies pending
      ensures match RulesApplied(State(old(pending.State()), books.State(), [], None), pending.delay, t)
              case Ok(o) => r == Ok(()) && pending.State() == o
              case Err(guard) => r == Err(guard)
    {
      if !t.barConfirmed { return Ok(()); }
      for i := 0 to |books.positions|
        invariant ExitsAccepted(old(pending.State()), pending.delay, books.positions[..i], t) == Ok(pending.State())
      {
        assert books.positions[..i + 1][..i] == books.positions[..i];
        if books.positions[i].id in t.wantsExit {
          r := pending.AcceptExitOrder(books.positions[i], t.time);
          if r.Err? {
            RefusalStays(old(pending.State()), pending.delay, books.positions, t, i + 1, r.error);
            return;
          }
        }
      }
      assert books.positions[..|books.positions|] == books.positions;
      if |books.positions| == 0 && pending.entry.None? && pending.exit.None? && t.wantsEntry.Some? {
        r := pending.AcceptEntryOrder(t.wantsEntry.value, t.time);
      } else {
        r := Ok(());
      }
    }

    /** Fills at a tick: exit first, then entry. */
    method CheckFills(books: EngineBooks, ghost s: State, t: TickInput) returns (ghost after: State)
      requires books.Valid() && books.params == params
      requires s.orders == pending.State() && s.books == books.State()
      modifies pending, books
      ensures books.Valid()
      ensures after == EntryFilled(ExitFilled(s, params, t), params, t)
      ensures after.orders == pending.State() && after.books == books.State()
    {
      after := s;
      var exit := pending.CheckExitFill(t.time);
      if exit.Some? {
        books.Exit(exit.value.position, t.pips(exit.value.position.id), t.time);
        after := ExitFilled(s, params, t);
      }
      var entry := pending.CheckEntryFill(t.time);
      if entry.Some? {
        books.Enter(entry.value.lot, t.time);
        after := EntryFilled(after, params, t);
      }
    }

    /** One tick: the rules, then the fills. */
    method OnTick(books: EngineBooks, ghost s: State, t: TickInput) returns (r: Result<(), Guard>, ghost after: State)
      requires books.Valid() && books.params == params
      requires s.orders == pending.State() && s.books == books.State()
      modifies pending, books
      ensures match Step(s, params, pending.delay, t)
              case Ok(next) => r == Ok(()) && after == next && books.Valid()
                               && next.orders == pending.State() && next.books == books.State()
              case Err(guard) => r == Err(guard)
    {
      after := s;
      r := ApplyRules(books, t);
      if r.Ok? {
        after := CheckFills(books, s.(orders := pending.State()), t);
        after := after.(lastTime := Some(t.time));
      }
    }

    /** After the last tick: the pending exit fills, the entry is cancelled, what is left is closed. */
    method Finish(books: EngineBooks, ghost s: State, ticks: seq<TickInput>)
      requires ticks != [] && books.Valid() && books.params == params
      requires s.orders == pending.State() && s.books == books.State()
      modifies pending, books
      ensures books.Valid() && books.State() == Finished(s, params, ticks).books && pending.State() == NO_ORDERS
    {
      var last := ticks[|ticks| - 1];
      var exitFill := pending.SettleAtStreamEnd();
      if exitFill.Some? {
        books.Exit(exitFill.value.position, last.pips(exitFill.value.position.id), last.time);
      }
      books.CloseAll(last.pips, last.time);
    }

    /** The whole run. A refused order throws and ends it without a result. */
    method RunAll(ticks: seq<TickInput>, equity: Option<real>) returns (r: Result<EngineBooks, Guard>)
      modifies pending
      ensures match Run(Start(equity).(orders := old(pending.State())), params, pending.delay, ticks)
              case Ok(s) => r.Ok? && fresh(r.value) && r.value.Valid()
                            && r.value.State() == Finished(s, params, ticks).books
                            && (ticks != [] ==> pending.State() == NO_ORDERS)
              case Err(guard) => r == Err(guard)
    {
      var books := new EngineBooks(params, equity);
      ghost var start := Start(equity).(orders := pending.State());
      ghost var s := start;
      for i := 0 to |ticks|
        invariant books.Valid() && fresh(books)
        invariant Run(start, params, pending.delay, ticks[..i]) == Ok(s)
        invariant s.orders == pending.State() && s.books == books.State()
      {
        var t := ticks[i];
        assert ticks[..i + 1][..i] == ticks[..i];
        var ruled;
        ruled, s := OnTick(books, s, t);
        if ruled.Err? {
          RunStops(start, params, pending.delay, ticks, i + 1, ruled.error);
          return Err(ruled.error);
        }
      }
      assert ticks[..|ticks|] == ticks;
      if |ticks| > 0 { Finish(books, s, ticks); }
      r := Ok(books);
    }
  }

  lemma {:induction false} RefusalStays(o: Orders, delay: int, hs: seq<Holding>, t: TickInput, k: nat, guard: Guard)
    requires k <= |hs| && ExitsAccepted(o, delay, hs[..k], t) == Err(guard)
    ensures ExitsAccepted(o, delay, hs, t) == Err(guard)
    decreases |hs| - k
  {
    if k == |hs| {
      assert hs[..k] == hs;
    } else {
      assert hs[..k + 1][..k] == hs[..k];
      RefusalStays(o, delay, hs, t, k + 1, guard);
    }
  }

  lemma {:induction false} RunStops(s: State, p: Params, delay: int, ticks: seq<TickInput>, k: nat, guard: Guard)
    requires k <= |ticks| && Run(s, p, delay, ticks[..k]) == Err(guard)
    ensures Run(s, p, delay, ticks) == Err(guard)
    decreases |ticks| - k
  {
    if k == |ticks| {
      assert ticks[..k] == ticks;
    } else {
      assert ticks[..k + 1][..k] == ticks[..k];
      RunStops(s, p, delay, ticks, k + 1, guard);
    }
  }
}
