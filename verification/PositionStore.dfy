/**
 The position entity (OPEN -> CLOSED) and the table of position rows that the
 exit saga, the compensation queue, the synchroniser and the emergency close
 all write to.
 */
module PositionStore {
  import opened Outcomes

  type PositionId = int

  datatype CurrencyPair = CurrencyPair(base: string, quote: string)
  datatype BuySell = BUY | SELL
  datatype Status = OPEN | CLOSED

  /** What is fixed when the entry fills. Times are epoch milliseconds. */
  datatype EntryInfo = EntryInfo(pair: CurrencyPair, side: BuySell, lot: nat, entryPrice: real,
                                 openedAt: int, strategy: string)

  /** The broker's answer to an exit order, joined with the command that asked for it. */
  datatype Fill = Fill(exitPrice: real, profitLoss: real, executedAt: int, exitType: string, exitReason: string)
  datatype Extremes = Extremes(highest: real, lowest: real)
  datatype Excursion = Excursion(mfePips: real, maePips: real)

  /** The mutable half of a position, and of its row. A row closed by `markClosed` has a
      closing time but no fill. */
  datatype Exit = Exit(status: Status, closedAt: Option<int>, fill: Option<Fill>, excursion: Option<Excursion>)

  datatype Row = Row(info: EntryInfo, exit: Exit)
  type Rows = map<PositionId, Row>

  const NOT_EXITED := Exit(OPEN, None, None, None)

  function PipUnit(pair: CurrencyPair): (unit: real)
    ensures unit > 0.0
  {
    if pair.quote == "JPY" then 0.01 else 0.0001
  }

  // ---------------------------------------------------------------- Position

  /** `Position.applyExtremes`: MFE/MAE in pips; a closed position is left alone. */
  function WithExtremes(info: EntryInfo, exit: Exit, e: Extremes): Exit {
    if exit.status == CLOSED then exit
    else
      var up := (e.highest - info.entryPrice) / PipUnit(info.pair);
      var down := (info.entryPrice - e.lowest) / PipUnit(info.pair);
      exit.(excursion := Some(if info.side == BUY then Excursion(up, down) else Excursion(down, up)))
  }

  /** The exit state after `Position.close` on an open position. */
  function Closing(exit: Exit, fill: Fill): Exit {
    exit.(status := CLOSED, closedAt := Some(fill.executedAt), fill := Some(fill))
  }

  /** `Position.restore`: exit columns are read back only for a CLOSED row. */
  function Restored(row: Row): Exit {
    if row.exit.status == CLOSED then row.exit else NOT_EXITED
  }

  /** The entity itself: identity and entry are fixed, the exit half is set in place. */
  class Position {
    const id: PositionId
    const info: EntryInfo
    var status: Status
    var closedAt: Option<int>
    var fill: Option<Fill>
    var excursion: Option<Excursion>

    function State(): Exit
      reads this
    {
      Exit(status, closedAt, fill, excursion)
    }

    constructor Open(id: PositionId, info: EntryInfo)
      ensures this.id == id && this.info == info && State() == NOT_EXITED
    {
      this.id, this.info := id, info;
      status, closedAt, fill, excursion := OPEN, None, None, None;
    }

    constructor Restore(id: PositionId, row: Row)
      ensures this.id == id && info == row.info && State() == Restored(row)
      ensures row.exit.status == CLOSED ==>
                status == CLOSED && closedAt == row.exit.closedAt && fill == row.exit.fill && excursion == row.exit.excursion
      ensures row.exit.status == OPEN ==> status == OPEN && closedAt == None && fill == None && excursion == None
    {
      this.id, info := id, row.info;
      status, closedAt, fill, excursion := OPEN, None, None, None;
      if row.exit.status == CLOSED {
        status := CLOSED;
        closedAt, fill, excursion := row.exit.closedAt, row.exit.fill, row.exit.excursion;
      }
    }

    method ApplyExtremes(e: Extremes)
      modifies this
      ensures State() == WithExtremes(info, old(State()), e)
      ensures status == old(status) && closedAt == old(closedAt) && fill == old(fill)
      ensures status == CLOSED ==> excursion == old(excursion)
      ensures status == OPEN ==>
                var pip := if info.pair.quote == "JPY" then 0.01 else 0.0001;
                excursion == Some(if info.side == BUY
                                  then Excursion((e.highest - info.entryPrice) / pip, (info.entryPrice - e.lowest) / pip)
                                  else Excursion((info.entryPrice - e.lowest) / pip, (e.highest - info.entryPrice) / pip))
    {
      if status == CLOSED { return; }
      var unit := PipUnit(info.pair);
      var up := (e.highest - info.entryPrice) / unit;
      var down := (info.entryPrice - e.lowest) / unit;
      if info.side == BUY {
        excursion := Some(Excursion(up, down));
      } else {
        excursion := Some(Excursion(down, up));
      }
    }

    /** Throws (Err, nothing changed) exactly when already closed. */
    method Close(f: Fill) returns (r: Result<(), string>)
      modifies this
      ensures r.Ok? <==> old(status) == OPEN
      ensures State() == if r.Ok? then Closing(old(State()), f) else old(State())
      ensures r.Ok? ==> status == CLOSED && closedAt == Some(f.executedAt) && fill == Some(f) && excursion == old(excursion)
    {
      if status == CLOSED { return Err("already closed"); }
      status, closedAt, fill := CLOSED, Some(f.executedAt), Some(f);
      r := Ok(());
    }
  }

  /** Half a yen up from 150 and a fifth of a yen down are 50 and 20 pips, for a buyer and the other way for a seller. */
  lemma ExtremesInPips(side: BuySell)
    ensures var info := EntryInfo(CurrencyPair("USD", "JPY"), side, 100, 150.0, 0, "SMA_CROSS");
            WithExtremes(info, NOT_EXITED, Extremes(150.5, 149.8)).excursion ==
            Some(if side == BUY then Excursion(50.0, 20.0) else Excursion(20.0, 50.0))
  {
    assert CurrencyPair("USD", "JPY").quote == "JPY";
  }

  // ---------------------------------------------------------------- Rows

  /** `update`: an unguarded write of the whole exit half; no such row, nothing happens. */
  function Updated(rows: Rows, id: PositionId, exit: Exit): Rows {
    if id in rows then rows[id := rows[id].(exit := exit)] else rows
  }

  /** `markClosed`: guarded by status = 'OPEN'; writes only the status and the closing time. */
  function MarkedClosed(rows: Rows, id: PositionId, now: int): Rows {
    if id in rows && rows[id].exit.status == OPEN
    then rows[id := rows[id].(exit := rows[id].exit.(status := CLOSED, closedAt := Some(now)))]
    else rows
  }

  function Registered(rows: Rows, id: PositionId, info: EntryInfo): Rows {
    if id in rows then rows else rows[id := Row(info, NOT_EXITED)]
  }

  /** The rows a `where status = 'OPEN'` query selects. */
  function OpenIds(rows: Rows): set<PositionId> {
    set id | id in rows && rows[id].exit.status == OPEN
  }

  class PositionTable {
    var rows: Rows

    constructor ()
      ensures rows == map[]
    {
      rows := map[];
    }

    /** The primary key makes a second registration of an id throw. */
    method Register(id: PositionId, info: EntryInfo) returns (r: Result<(), string>)
      modifies this
      ensures rows == Registered(old(rows), id, info)
      ensures r.Ok? <==> id !in old(rows)
      ensures rows == if r.Ok? then old(rows)[id := Row(info, Exit(OPEN, None, None, None))] else old(rows)
    {
      if id in rows { return Err("duplicate key"); }
      rows := rows[id := Row(info, NOT_EXITED)];
      r := Ok(());
    }

    method Update(id: PositionId, exit: Exit)
      modifies this
      ensures rows == Updated(old(rows), id, exit)
      ensures rows == if id in old(rows) then old(rows)[id := Row(old(rows)[id].info, exit)] else old(rows)
    {
      if id in rows {
        rows := rows[id := Row(rows[id].info, exit)];
      }
    }

    method MarkClosed(id: PositionId, now: int) returns (rowCount: nat)
      modifies this
      ensures rows == MarkedClosed(old(rows), id, now)
      ensures rowCount == if id in old(rows) && old(rows)[id].exit.status == OPEN then 1 else 0
      ensures rowCount == 0 ==> rows == old(rows)
      ensures rowCount == 1 ==>
                var was := old(rows)[id];
                rows == old(rows)[id := Row(was.info, Exit(CLOSED, Some(now), was.exit.fill, was.exit.excursion))]
    {
      if id in rows && rows[id].exit.status == OPEN {
        var e := rows[id].exit;
        rows := rows[id := Row(rows[id].info, Exit(CLOSED, Some(now), e.fill, e.excursion))];
        rowCount := 1;
      } else {
        rowCount := 0;
      }
    }

    method FindById(id: PositionId) returns (r: Result<Position, string>)
      ensures r.Ok? <==> id in rows
      ensures r.Ok? ==> fresh(r.value) && r.value.id == id && r.value.info == rows[id].info
                        && r.value.State() == Restored(rows[id])
    {
      if id !in rows { return Err("position not found"); }
      var p := new Position.Restore(id, rows[id]);
      r := Ok(p);
    }
  }

  // ---------------------------------------------------------------- Confluence

  datatype RowWrite = UpdateWrite(exit: Exit) | MarkClosedWrite(now: int)

  function Write(rows: Rows, id: PositionId, w: RowWrite): Rows {
    match w
    case UpdateWrite(exit) => Updated(rows, id, exit)
    case MarkClosedWrite(now) => MarkedClosed(rows, id, now)
  }

  function WriteAll(rows: Rows, id: PositionId, ws: seq<RowWrite>): Rows {
    if ws == [] then rows else Write(WriteAll(rows, id, ws[..|ws| - 1]), id, ws[|ws| - 1])
  }

  /** All full updates carry the one exit the broker accepted for this position. */
  ghost predicate OneExit(ws: seq<RowWrite>, exit: Exit) {
    && exit.status == CLOSED && exit.fill.Some?
    && forall i :: 0 <= i < |ws| && ws[i].UpdateWrite? ==> ws[i].exit == exit
  }

  /**
   Compensation updates and guarded marks are confluent: in any number and any order, the
   row ends with the full exit exactly when one update ran, with a bare CLOSED exactly when
   only marks ran on an open row, and other rows are untouched.
   */
  lemma {:induction false} WritesAreConfluent(rows: Rows, id: PositionId, ws: seq<RowWrite>, exit: Exit)
    requires id in rows && OneExit(ws, exit)
    ensures var after := WriteAll(rows, id, ws);
            && after.Keys == rows.Keys
            && after[id].info == rows[id].info
            && (forall other :: other in rows && other != id ==> after[other] == rows[other])
            && ((exists i :: 0 <= i < |ws| && ws[i].UpdateWrite?) ==> after[id].exit == exit)
            && ((forall i :: 0 <= i < |ws| ==> ws[i].MarkClosedWrite?) ==>
                  after[id].exit == if ws == [] || rows[id].exit.status == CLOSED then rows[id].exit
                                    else rows[id].exit.(status := CLOSED, closedAt := Some(ws[0].now)))
  {
    if ws != [] {
      var init, last := ws[..|ws| - 1], ws[|ws| - 1];
      WritesAreConfluent(rows, id, init, exit);
      if last.MarkClosedWrite? && exists i :: 0 <= i < |ws| && ws[i].UpdateWrite? {
        var i :| 0 <= i < |ws| && ws[i].UpdateWrite?;
        assert init[i].UpdateWrite?;
      }
    }
  }

  /** No order of writes reopens a row, and once a fill is recorded it is never lost. */
  lemma {:induction false} WritesAreMonotone(rows: Rows, id: PositionId, ws: seq<RowWrite>, exit: Exit, n: nat)
    requires id in rows && OneExit(ws, exit) && n <= |ws|
    requires rows[id].exit.fill.Some? ==> rows[id].exit == exit
    ensures id in WriteAll(rows, id, ws[..n]) && id in WriteAll(rows, id, ws)
    ensures WriteAll(rows, id, ws[..n])[id].exit.status == CLOSED
            ==> WriteAll(rows, id, ws)[id].exit.status == CLOSED
    ensures WriteAll(rows, id, ws[..n])[id].exit.fill.Some?
            ==> WriteAll(rows, id, ws)[id].exit == WriteAll(rows, id, ws[..n])[id].exit == exit
    decreases |ws|
  {
    if n == |ws| {
      assert ws[..n] == ws;
      WritesAreConfluent(rows, id, ws, exit);
      if forall i :: 0 <= i < |ws| ==> ws[i].MarkClosedWrite? {
      } else {
        assert exists i :: 0 <= i < |ws| && ws[i].UpdateWrite?;
      }
    } else {
      var init := ws[..|ws| - 1];
      assert init[..n] == ws[..n];
      WritesAreMonotone(rows, id, init, exit, n);
    }
  }
}
