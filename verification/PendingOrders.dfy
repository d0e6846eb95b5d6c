/** Orders waiting for the execution delay to pass: one slot for an entry, one for an exit. */
module PendingOrders {
  import opened Outcomes
  import opened TradeBooks

  /** `fillableAt` is the acceptance time plus the delay. */
  datatype PendingEntry = PendingEntry(lot: real, acceptedAt: int, fillableAt: int)
  datatype PendingExit = PendingExit(position: Holding, acceptedAt: int, fillableAt: int)
  datatype Orders = Orders(entry: Option<PendingEntry>, exit: Option<PendingExit>)

  /** A second order for a slot that is taken: a caller's mistake, refused. */
  datatype Guard = DoubleEntry | DoubleExit

  const NO_ORDERS := Orders(None, None)

  function WithEntry(o: Orders, delay: int, lot: real, time: int): Result<Orders, Guard> {
    if o.entry.Some? then Err(DoubleEntry) else Ok(o.(entry := Some(PendingEntry(lot, time, time + delay))))
  }

  function WithExit(o: Orders, delay: int, position: Holding, time: int): Result<Orders, Guard> {
    if o.exit.Some? then Err(DoubleExit) else Ok(o.(exit := Some(PendingExit(position, time, time + delay))))
  }

  predicate EntryDue(o: Orders, time: int) {
    o.entry.Some? && time >= o.entry.value.fillableAt
  }

  predicate ExitDue(o: Orders, time: int) {
    o.exit.Some? && time >= o.exit.value.fillableAt
  }

  class PendingOrderManager {
    const delay: int
    var entry: Option<PendingEntry>
    var exit: Option<PendingExit>

    function State(): Orders
      reads this
    {
      Orders(entry, exit)
    }

    constructor (delay: int)
      ensures this.delay == delay && State() == NO_ORDERS
    {
      this.delay, entry, exit := delay, None, None;
    }

    method AcceptEntryOrder(lot: real, time: int) returns (r: Result<(), Guard>)
      modifies this
      ensures match WithEntry(old(State()), delay, lot, time)
              case Ok(after) => r == Ok(()) && State() == after
              case Err(guard) => r == Err(guard) && State() == old(State())
      ensures exit == old(exit)
      ensures if old(entry).Some? then r == Err(DoubleEntry) && entry == old(entry)
              else r == Ok(()) && entry == Some(PendingEntry(lot, time, time + delay))
    {
      if entry.Some? { return Err(DoubleEntry); }
      entry := Some(PendingEntry(lot, time, time + delay));
      r := Ok(());
    }

    method AcceptExitOrder(position: Holding, time: int) returns (r: Result<(), Guard>)
      modifies this
      ensures match WithExit(old(State()), delay, position, time)
              case Ok(after) => r == Ok(()) && State() == after
              case Err(guard) => r == Err(guard) && State() == old(State())
      ensures entry == old(entry)
      ensures if old(exit).Some? then r == Err(DoubleExit) && exit == old(exit)
              else r == Ok(()) && exit == Some(PendingExit(position, time, time + delay))
    {
      if exit.Some? { return Err(DoubleExit); }
      exit := Some(PendingExit(position, time, time + delay));
      r := Ok(());
    }

    method CheckEntryFill(time: int) returns (r: Option<PendingEntry>)
      modifies this
      ensures r == if EntryDue(old(State()), time) then old(entry) else None
      ensures State() == if EntryDue(old(State()), time) then old(State()).(entry := None) else old(State())
      ensures exit == old(exit)
      ensures if old(entry).Some? && time >= old(entry).value.fillableAt then r == old(entry) && entry == None
              else r == None && entry == old(entry)
    {
      if entry.None? || time < entry.value.fillableAt { return None; }
      r := entry;
      entry := None;
    }

    method CheckExitFill(time: int) returns (r: Option<PendingExit>)
      modifies this
      ensures r == if ExitDue(old(State()), time) then old(exit) else None
      ensures State() == if ExitDue(old(State()), time) then old(State()).(exit := None) else old(State())
      ensures entry == old(entry)
      ensures if old(exit).Some? && time >= old(exit).value.fillableAt then r == old(exit) && exit == None
              else r == None && exit == old(exit)
    {
      if exit.None? || time < exit.value.fillableAt { return None; }
      r := exit;
      exit := None;
    }

    /** At the end of the stream a pending entry is cancelled and a pending exit filled at once. */
    method SettleAtStreamEnd() returns (exitFill: Option<PendingExit>)
      modifies this
      ensures exitFill == old(exit) && State() == NO_ORDERS
    {
      entry := None;
      if exit.None? { return None; }
      exitFill := exit;
      exit := None;
    }
  }
}
