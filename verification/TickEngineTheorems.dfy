/** What every run over ticks keeps: one position, sound pending orders, conserved equity. */
module TickEngineTheorems {
  import opened Outcomes
  import opened TradeBooks
  import opened PendingOrders
  import opened TickEngine

  /** A pending entry has the field to itself; a pending exit is for the one open position. */
  predicate OrdersFit(o: Orders, delay: int, hs: seq<Holding>) {
    && (o.entry.Some? ==> hs == [] && o.exit.None? && o.entry.value.fillableAt == o.entry.value.acceptedAt + delay)
    && (o.exit.Some? ==> hs == [o.exit.value.position] && o.exit.value.fillableAt == o.exit.value.acceptedAt + delay)
  }

  /** What is pending between ticks was not due at the tick before. */
  predicate NothingDue(s: State, delay: int) {
    && (delay <= 0 ==> s.orders == NO_ORDERS)
    && (s.orders != NO_ORDERS ==> s.lastTime.Some?)
    && (s.lastTime.Some? ==> !EntryDue(s.orders, s.lastTime.value) && !ExitDue(s.orders, s.lastTime.value))
  }

  predicate FillsWait(fills: seq<Fill>, delay: int) {
    forall i :: 0 <= i < |fills| ==> fills[i].atStreamEnd || fills[i].filledAt >= fills[i].acceptedAt + delay
  }

  ghost predicate Sound(s: State, p: Params, delay: int, base: real) {
    && Telescopes(s.books, p, base) && OrdersFit(s.orders, delay, s.books.positions)
    && FillsWait(s.fills, delay) && NothingDue(s, delay)
  }

  /** The exit rule asks for the one position whose exit is already pending. */
  predicate Clashes(s: State, t: TickInput) {
    && t.barConfirmed && s.orders.exit.Some? && s.orders.exit.value.position.id in t.wantsExit
  }

  lemma OnePosition(o: Orders, delay: int, hs: seq<Holding>, t: TickInput)
    requires |hs| == 1
    ensures ExitsAccepted(o, delay, hs, t) == if hs[0].id in t.wantsExit then WithExit(o, delay, hs[0], t.time) else Ok(o)
  {
    assert hs[..|hs| - 1] == [];
    assert ExitsAccepted(o, delay, [], t) == Ok(o);
  }

  /** The rules throw exactly on a clash, and then it is the exit guard: the entry guard is unreachable. */
  lemma RulesThrowExactly(s: State, delay: int, t: TickInput)
    requires OrdersFit(s.orders, delay, s.books.positions) && |s.books.positions| <= 1
    ensures RulesApplied(s, delay, t).Err? <==> Clashes(s, t)
    ensures RulesApplied(s, delay, t).Err? ==> RulesApplied(s, delay, t).error == DoubleExit
    ensures RulesApplied(s, delay, t).Ok? ==> OrdersFit(RulesApplied(s, delay, t).value, delay, s.books.positions)
  {
    var hs := s.books.positions;
    if hs != [] { OnePosition(s.orders, delay, hs, t); }
  }

  /** An order the rules have just accepted is due at once without a delay. */
  lemma RulesAcceptNow(s: State, delay: int, t: TickInput)
    requires OrdersFit(s.orders, delay, s.books.positions) && |s.books.positions| <= 1 && !Clashes(s, t)
    ensures var o := RulesApplied(s, delay, t);
            && o.Ok?
            && (s.orders == NO_ORDERS && delay <= 0 ==>
                  (o.value.entry.Some? ==> EntryDue(o.value, t.time)) && (o.value.exit.Some? ==> ExitDue(o.value, t.time)))
  {
    RulesThrowExactly(s, delay, t);
    var hs := s.books.positions;
    if hs != [] { OnePosition(s.orders, delay, hs, t); }
  }

  lemma ExitFillKeeps(s: State, p: Params, delay: int, base: real, t: TickInput)
    requires Telescopes(s.books, p, base) && OrdersFit(s.orders, delay, s.books.positions) && FillsWait(s.fills, delay)
    ensures var now := ExitFilled(s, p, t);
            && Telescopes(now.books, p, base) && OrdersFit(now.orders, delay, now.books.positions)
            && FillsWait(now.fills, delay) && !ExitDue(now.orders, t.time)
            && now.orders.entry == s.orders.entry && now.lastTime == s.lastTime
            && (now.orders.exit.Some? ==> now.orders == s.orders)
  {
    if ExitDue(s.orders, t.time) {
      var exit := s.orders.exit.value;
      ExitTelescopes(s.books, p, base, t.pips(exit.position.id), t.time);
    }
  }

  lemma EntryFillKeeps(s: State, p: Params, delay: int, base: real, t: TickInput)
    requires Telescopes(s.books, p, base) && OrdersFit(s.orders, delay, s.books.positions) && FillsWait(s.fills, delay)
    ensures var now := EntryFilled(s, p, t);
            && Telescopes(now.books, p, base) && OrdersFit(now.orders, delay, now.books.positions)
            && FillsWait(now.fills, delay) && !EntryDue(now.orders, t.time)
            && now.orders.exit == s.orders.exit && now.lastTime == s.lastTime
            && (now.orders.entry.Some? ==> now.orders == s.orders)
  {
    if EntryDue(s.orders, t.time) {
      EntryTelescopes(s.books, p, base, s.orders.entry.value.lot, t.time);
    }
  }

  /** One tick: it fails exactly on a clash, and otherwise keeps everything. */
  lemma StepKeeps(s: State, p: Params, delay: int, base: real, t: TickInput)
    requires Sound(s, p, delay, base)
    ensures Step(s, p, delay, t).Err? <==> Clashes(s, t)
    ensures Step(s, p, delay, t).Err? ==> Step(s, p, delay, t).error == DoubleExit
    ensures Step(s, p, delay, t).Ok? ==> Sound(Step(s, p, delay, t).value, p, delay, base)
  {
    RulesThrowExactly(s, delay, t);
    if !Clashes(s, t) {
      RulesAcceptNow(s, delay, t);
      var ruled := s.(orders := RulesApplied(s, delay, t).value);
      ExitFillKeeps(ruled, p, delay, base, t);
      EntryFillKeeps(ExitFilled(ruled, p, t), p, delay, base, t);
    }
  }

  function Base(p: Params, equity: Option<real>): real {
    Capital(NewBooks(equity), p)
  }

  /** At most one position, sound orders, respected delays and conserved equity after every tick of every run. */
  lemma {:induction false} RunKeeps(p: Params, delay: int, equity: Option<real>, ticks: seq<TickInput>)
    ensures var r := Run(Start(equity), p, delay, ticks);
            match r case Ok(s) => Sound(s, p, delay, Base(p, equity)) case Err(guard) => guard == DoubleExit
  {
    if ticks == [] {
      NewTelescopes(p, equity);
    } else {
      var init := ticks[..|ticks| - 1];
      RunKeeps(p, delay, equity, init);
      if Run(Start(equity), p, delay, init).Ok? {
        StepKeeps(Run(Start(equity), p, delay, init).value, p, delay, Base(p, equity), ticks[|ticks| - 1]);
      }
    }
  }

  /** The `k`-th tick is reached and asks for an exit that is already pending. */
  ghost predicate ClashesAt(p: Params, delay: int, equity: Option<real>, ticks: seq<TickInput>, k: nat) {
    && k < |ticks| && Run(Start(equity), p, delay, ticks[..k]).Ok?
    && Clashes(Run(Start(equity), p, delay, ticks[..k]).value, ticks[k])
  }

  /** A run that throws does so on a clash, and on the exit guard: no other guard is ever reached. */
  lemma {:induction false} ThrownByClash(p: Params, delay: int, equity: Option<real>, ticks: seq<TickInput>) returns (k: nat)
    requires Run(Start(equity), p, delay, ticks).Err?
    ensures Run(Start(equity), p, delay, ticks).error == DoubleExit
    ensures ClashesAt(p, delay, equity, ticks, k)
  {
    var n := |ticks| - 1;
    RunKeeps(p, delay, equity, ticks);
    if Run(Start(equity), p, delay, ticks[..n]).Err? {
      k := ThrownByClash(p, delay, equity, ticks[..n]);
      assert ticks[..n][..k] == ticks[..k];
    } else {
      k := n;
      RunKeeps(p, delay, equity, ticks[..n]);
      StepKeeps(Run(Start(equity), p, delay, ticks[..n]).value, p, delay, Base(p, equity), ticks[n]);
    }
  }

  /** And every clash that is reached throws. */
  lemma ClashThrows(p: Params, delay: int, equity: Option<real>, ticks: seq<TickInput>, k: nat)
    requires ClashesAt(p, delay, equity, ticks, k)
    ensures Run(Start(equity), p, delay, ticks) == Err(DoubleExit)
  {
    RunKeeps(p, delay, equity, ticks[..k]);
    StepKeeps(Run(Start(equity), p, delay, ticks[..k]).value, p, delay, Base(p, equity), ticks[k]);
    assert ticks[..k + 1][..k] == ticks[..k];
    RunStops(Start(equity), p, delay, ticks, k + 1, DoubleExit);
  }

  /** Without a delay no run ever throws. */
  lemma {:induction false} NoDelayNoClash(p: Params, delay: int, equity: Option<real>, ticks: seq<TickInput>)
    requires delay <= 0
    ensures Run(Start(equity), p, delay, ticks).Ok?
  {
    if ticks != [] {
      var init := ticks[..|ticks| - 1];
      NoDelayNoClash(p, delay, equity, init);
      RunKeeps(p, delay, equity, init);
      StepKeeps(Run(Start(equity), p, delay, init).value, p, delay, Base(p, equity), ticks[|ticks| - 1]);
    }
  }

  /**
   A condition on the tick stream alone: if after every confirmed bar some tick comes late enough to
   fill an order accepted there, before the next bar is confirmed, no run throws, whatever the rules answer.
   */
  ghost predicate WellSpaced(ticks: seq<TickInput>, delay: int) {
    forall j, k :: 0 <= j < k < |ticks| && ticks[j].barConfirmed && ticks[k].barConfirmed ==>
      HasTickFrom(ticks, j, k, ticks[j].time + delay)
  }

  ghost predicate HasTickFrom(ticks: seq<TickInput>, j: int, k: int, time: int) {
    exists i :: 0 <= j <= i < k <= |ticks| && ticks[i].time >= time
  }

  /** A pending exit was accepted at a confirmed bar since when no tick has reached its fill time. */
  ghost predicate AcceptedAt(s: State, ticks: seq<TickInput>, j: int) {
    && 0 <= j < |ticks| && ticks[j].barConfirmed && s.orders.exit.Some?
    && s.orders.exit.value.acceptedAt == ticks[j].time
    && forall i :: j <= i < |ticks| ==> ticks[i].time < s.orders.exit.value.fillableAt
  }

  lemma PendingSince(s: State, p: Params, delay: int, base: real, ticks: seq<TickInput>, t: TickInput, was: int) returns (j: int)
    requires Sound(s, p, delay, base) && !Clashes(s, t)
    requires s.orders.exit.Some? ==> AcceptedAt(s, ticks, was)
    requires Step(s, p, delay, t).Ok? && Step(s, p, delay, t).value.orders.exit.Some?
    ensures AcceptedAt(Step(s, p, delay, t).value, ticks + [t], j)
  {
    StepKeeps(s, p, delay, base, t);
    var hs := s.books.positions;
    if hs != [] { OnePosition(s.orders, delay, hs, t); }
    j := if s.orders.exit.Some? then was else |ticks|;
  }

  lemma {:induction false} PendingFrom(p: Params, delay: int, equity: Option<real>, ticks: seq<TickInput>) returns (j: int)
    requires Run(Start(equity), p, delay, ticks).Ok?
    ensures var s := Run(Start(equity), p, delay, ticks).value;
            s.orders.exit.Some? ==> AcceptedAt(s, ticks, j)
  {
    j := 0;
    if ticks != [] {
      var init, t := ticks[..|ticks| - 1], ticks[|ticks| - 1];
      j := PendingFrom(p, delay, equity, init);
      RunKeeps(p, delay, equity, init);
      var before := Run(Start(equity), p, delay, init).value;
      StepKeeps(before, p, delay, Base(p, equity), t);
      assert init + [t] == ticks;
      if Step(before, p, delay, t).value.orders.exit.Some? {
        j := PendingSince(before, p, delay, Base(p, equity), init, t, j);
      }
    }
  }

  lemma WellSpacedNeverThrows(p: Params, delay: int, equity: Option<real>, ticks: seq<TickInput>)
    requires WellSpaced(ticks, delay)
    ensures Run(Start(equity), p, delay, ticks).Ok?
  {
    if Run(Start(equity), p, delay, ticks).Err? {
      var k := ThrownByClash(p, delay, equity, ticks);
      var upTo := ticks[..k];
      var s := Run(Start(equity), p, delay, upTo).value;
      RunKeeps(p, delay, equity, upTo);
      var j := PendingFrom(p, delay, equity, upTo);
    }
  }

  /** It does throw on sparse ticks: a bar confirmed by each, a delay, and a rule that keeps asking. */
  lemma SparseTicksThrow(p: Params, pips: nat -> real)
    ensures var ticks := [TickInput(60_000, true, {}, Some(1000.0), pips), TickInput(61_000, false, {}, None, pips),
                          TickInput(120_000, true, {0}, None, pips), TickInput(180_000, true, {0}, None, pips)];
            Run(Start(None), p, 100, ticks) == Err(DoubleExit)
  {
    var t0 := TickInput(60_000, true, {}, Some(1000.0), pips);
    var t1 := TickInput(61_000, false, {}, None, pips);
    var t2 := TickInput(120_000, true, {0}, None, pips);
    var t3 := TickInput(180_000, true, {0}, None, pips);
    var h := Holding(0, 1000.0, 61_000);
    var ticks := [t0, t1, t2, t3];
    assert ticks[..0] == [] && ticks[..1] == [t0] && ticks[..2] == [t0, t1] && ticks[..3] == [t0, t1, t2];
    assert [t0][..0] == [] && [t0, t1][..1] == [t0] && [t0, t1, t2][..2] == [t0, t1];
    var s1 := Step(Start(None), p, 100, t0).value;
    assert Run(Start(None), p, 100, ticks[..1]) == Ok(s1);
    var s2 := Step(s1, p, 100, t1).value;
    assert s2.books.positions == [h];
    assert Run(Start(None), p, 100, ticks[..2]) == Ok(s2);
    OnePosition(s2.orders, 100, [h], t2);
    var s3 := Step(s2, p, 100, t2).value;
    assert s3.orders.exit == Some(PendingExit(h, 120_000, 120_100));
    assert Run(Start(None), p, 100, ticks[..3]) == Ok(s3);
    ClashThrows(p, 100, None, ticks, 3);
  }

  // ---------------------------------------------------------------- Every wish is carried out

  /** A wanted entry is accepted when nothing is open and nothing pending, and nothing else is. */
  predicate EntersNow(s: State, t: TickInput) {
    t.barConfirmed && s.books.positions == [] && s.orders.entry.None? && s.orders.exit.None? && t.wantsEntry.Some?
  }

  /** An entry that is or becomes pending opens its position at the first tick from its acceptance plus the delay on. */
  ghost predicate EntryFollows(s: State, delay: int, t: TickInput, n: State) {
    if !EntersNow(s, t) && s.orders.entry.None? then
      n.books.entered == s.books.entered && n.orders.entry.None?
    else
      var lot := if EntersNow(s, t) then t.wantsEntry.value else s.orders.entry.value.lot;
      var at := if EntersNow(s, t) then t.time else s.orders.entry.value.acceptedAt;
      if t.time >= at + delay then
        var h := Holding(|s.books.entered|, lot, t.time);
        && n.books.entered == s.books.entered + [h] && n.books.positions == [h] && n.orders.entry.None?
        && n.fills == s.fills + [Fill(at, t.time, false)]
      else
        && n.books.entered == s.books.entered && n.books.positions == s.books.positions
        && n.orders.entry == Some(PendingEntry(lot, at, at + delay))
  }

  /** A wanted exit of the open position is accepted. */
  predicate ExitsNow(s: State, t: TickInput) {
    t.barConfirmed && s.books.positions != [] && s.books.positions[0].id in t.wantsExit
  }

  /** An exit that is or becomes pending closes the position at the first tick from its acceptance plus the delay
      on, with that tick's time and the pips it makes there. */
  ghost predicate ExitFollows(s: State, delay: int, t: TickInput, n: State) {
    if !ExitsNow(s, t) && s.orders.exit.None? then
      n.books.trades == s.books.trades && n.orders.exit.None?
    else
      && s.books.positions != []
      && var h := s.books.positions[0];
         var at := if ExitsNow(s, t) then t.time else s.orders.exit.value.acceptedAt;
         if t.time >= at + delay then
           && AddsTrade(s.books.trades, n.books.trades, h, t.pips(h.id), t.time)
           && n.books.positions == [] && n.orders.exit.None? && n.fills == s.fills + [Fill(at, t.time, false)]
         else
           && n.books.trades == s.books.trades && n.books.positions == s.books.positions
           && n.orders.exit == Some(PendingExit(h, at, at + delay))
  }

  /** The rest stands still: with neither an entry nor an exit filling, the same position stays open. */
  ghost predicate Follows(s: State, delay: int, t: TickInput, n: State) {
    && EntryFollows(s, delay, t, n) && ExitFollows(s, delay, t, n)
    && (n.books.entered == s.books.entered && n.books.trades == s.books.trades ==>
          n.books.positions == s.books.positions && n.fills == s.fills)
  }

  lemma RulesFollow(s: State, delay: int, t: TickInput)
    requires OrdersFit(s.orders, delay, s.books.positions) && |s.books.positions| <= 1 && !Clashes(s, t)
    ensures var o := RulesApplied(s, delay, t);
            && o.Ok?
            && o.value.entry == (if EntersNow(s, t) then Some(PendingEntry(t.wantsEntry.value, t.time, t.time + delay))
                                 else s.orders.entry)
            && o.value.exit == (if ExitsNow(s, t) then Some(PendingExit(s.books.positions[0], t.time, t.time + delay))
                                else s.orders.exit)
  {
    RulesThrowExactly(s, delay, t);
    var hs := s.books.positions;
    if hs != [] { OnePosition(s.orders, delay, hs, t); }
  }

  lemma FillsFollow(s: State, p: Params, delay: int, t: TickInput, ruled: State)
    requires OrdersFit(s.orders, delay, s.books.positions) && |s.books.positions| <= 1
    requires OrdersFit(ruled.orders, delay, s.books.positions) && ruled == s.(orders := ruled.orders)
    requires ruled.orders.entry == if EntersNow(s, t) then Some(PendingEntry(t.wantsEntry.value, t.time, t.time + delay))
                                   else s.orders.entry
    requires ruled.orders.exit == if ExitsNow(s, t) then Some(PendingExit(s.books.positions[0], t.time, t.time + delay))
                                  else s.orders.exit
    ensures Follows(s, delay, t, EntryFilled(ExitFilled(ruled, p, t), p, t))
  {
    if ruled.orders.exit.Some? { WithoutOnly(ruled.orders.exit.value.position); }
  }

  lemma StepFollows(s: State, p: Params, delay: int, base: real, t: TickInput)
    requires Sound(s, p, delay, base) && Step(s, p, delay, t).Ok?
    ensures Follows(s, delay, t, Step(s, p, delay, t).value)
  {
    StepKeeps(s, p, delay, base, t);
    RulesThrowExactly(s, delay, t);
    RulesFollow(s, delay, t);
    FillsFollow(s, p, delay, t, s.(orders := RulesApplied(s, delay, t).value));
  }

  /** The run gets past its first `k` ticks. */
  ghost predicate Reaches(p: Params, delay: int, equity: Option<real>, ticks: seq<TickInput>, k: nat) {
    k <= |ticks| && Run(Start(equity), p, delay, ticks[..k]).Ok?
  }

  /** Where it stands then. */
  ghost function At(p: Params, delay: int, equity: Option<real>, ticks: seq<TickInput>, k: nat): State
    requires Reaches(p, delay, equity, ticks, k)
  {
    Run(Start(equity), p, delay, ticks[..k]).value
  }

  lemma OneTick(p: Params, delay: int, equity: Option<real>, ticks: seq<TickInput>, k: nat)
    requires k < |ticks| && Reaches(p, delay, equity, ticks, k + 1)
    ensures Reaches(p, delay, equity, ticks, k) && Sound(At(p, delay, equity, ticks, k), p, delay, Base(p, equity))
    ensures Step(At(p, delay, equity, ticks, k), p, delay, ticks[k]) == Ok(At(p, delay, equity, ticks, k + 1))
  {
    assert ticks[..k + 1][..k] == ticks[..k] && ticks[..k + 1][k] == ticks[k];
    RunKeeps(p, delay, equity, ticks[..k]);
  }

  /** Over every run, each tick carries out what was wished and what is due, and does nothing else. */
  lemma EveryTickFollows(p: Params, delay: int, equity: Option<real>, ticks: seq<TickInput>, k: nat)
    requires k < |ticks| && Reaches(p, delay, equity, ticks, k + 1)
    ensures Reaches(p, delay, equity, ticks, k) && !Clashes(At(p, delay, equity, ticks, k), ticks[k])
    ensures Follows(At(p, delay, equity, ticks, k), delay, ticks[k], At(p, delay, equity, ticks, k + 1))
  {
    OneTick(p, delay, equity, ticks, k);
    StepKeeps(At(p, delay, equity, ticks, k), p, delay, Base(p, equity), ticks[k]);
    StepFollows(At(p, delay, equity, ticks, k), p, delay, Base(p, equity), ticks[k]);
  }

  /** Tick `k` is the first from `time` on, counting from tick `j`. */
  predicate FirstFrom(ticks: seq<TickInput>, j: nat, k: nat, time: int) {
    j <= k < |ticks| && ticks[k].time >= time && forall i :: j <= i < k ==> ticks[i].time < time
  }

  /** An entry of that lot, accepted at that time, is pending, and nothing has been entered since. */
  predicate AwaitsEntry(was: State, lot: real, at: int, delay: int, s: State) {
    s.books.entered == was.books.entered && s.orders.entry == Some(PendingEntry(lot, at, at + delay))
  }

  lemma EntryTick(s: State, delay: int, t: TickInput, n: State, was: State, lot: real, at: int)
    requires EntryFollows(s, delay, t, n)
    requires (EntersNow(s, t) && s == was && lot == t.wantsEntry.value && at == t.time)
             || AwaitsEntry(was, lot, at, delay, s)
    ensures if t.time >= at + delay
            then n.books.entered == was.books.entered + [Holding(|was.books.entered|, lot, t.time)]
                 && n.books.positions == [n.books.entered[|was.books.entered|]]
            else AwaitsEntry(was, lot, at, delay, n)
  {
  }

  lemma {:induction false} EntryWaits(p: Params, delay: int, equity: Option<real>, ticks: seq<TickInput>, j: nat, k: nat)
    requires j < k <= |ticks| && Reaches(p, delay, equity, ticks, j) && Reaches(p, delay, equity, ticks, k)
    requires EntersNow(At(p, delay, equity, ticks, j), ticks[j])
    requires forall i :: j <= i < k ==> ticks[i].time < ticks[j].time + delay
    ensures AwaitsEntry(At(p, delay, equity, ticks, j), ticks[j].wantsEntry.value, ticks[j].time, delay,
                        At(p, delay, equity, ticks, k))
  {
    EveryTickFollows(p, delay, equity, ticks, k - 1);
    if k - 1 > j { EntryWaits(p, delay, equity, ticks, j, k - 1); }
    EntryTick(At(p, delay, equity, ticks, k - 1), delay, ticks[k - 1], At(p, delay, equity, ticks, k),
              At(p, delay, equity, ticks, j), ticks[j].wantsEntry.value, ticks[j].time);
  }

  /**
   A wanted entry is never dropped: accepted at tick `j`, it opens a position of that lot at the first tick
   from its acceptance plus the delay on, whatever comes in between.
   */
  lemma EntryIsTaken(p: Params, delay: int, equity: Option<real>, ticks: seq<TickInput>, j: nat, k: nat)
    requires j < |ticks| && FirstFrom(ticks, j, k, ticks[j].time + delay) && Reaches(p, delay, equity, ticks, k + 1)
    requires Reaches(p, delay, equity, ticks, j) && EntersNow(At(p, delay, equity, ticks, j), ticks[j])
    ensures var was, now := At(p, delay, equity, ticks, j).books, At(p, delay, equity, ticks, k + 1).books;
            && now.entered == was.entered + [Holding(|was.entered|, ticks[j].wantsEntry.value, ticks[k].time)]
            && now.positions == [now.entered[|was.entered|]]
  {
    EveryTickFollows(p, delay, equity, ticks, k);
    if k > j { EntryWaits(p, delay, equity, ticks, j, k); }
    EntryTick(At(p, delay, equity, ticks, k), delay, ticks[k], At(p, delay, equity, ticks, k + 1),
              At(p, delay, equity, ticks, j), ticks[j].wantsEntry.value, ticks[j].time);
  }

  /** The exit accepted at that time is pending, its position still open, and no trade has come since. */
  predicate AwaitsExit(was: State, at: int, delay: int, s: State) {
    && was.books.positions != [] && s.books.trades == was.books.trades && s.books.positions == was.books.positions
    && s.orders.exit == Some(PendingExit(was.books.positions[0], at, at + delay))
  }

  lemma ExitTick(s: State, delay: int, t: TickInput, n: State, was: State, at: int)
    requires ExitFollows(s, delay, t, n) && !Clashes(s, t)
    requires (ExitsNow(s, t) && s == was && at == t.time) || AwaitsExit(was, at, delay, s)
    ensures was.books.positions != []
    ensures if t.time >= at + delay
            then AddsTrade(was.books.trades, n.books.trades, was.books.positions[0], t.pips(was.books.positions[0].id), t.time)
                 && n.books.positions == []
            else AwaitsExit(was, at, delay, n)
  {
  }

  lemma {:induction false} ExitWaits(p: Params, delay: int, equity: Option<real>, ticks: seq<TickInput>, j: nat, k: nat)
    requires j < k <= |ticks| && Reaches(p, delay, equity, ticks, j) && Reaches(p, delay, equity, ticks, k)
    requires ExitsNow(At(p, delay, equity, ticks, j), ticks[j])
    requires forall i :: j <= i < k ==> ticks[i].time < ticks[j].time + delay
    ensures AwaitsExit(At(p, delay, equity, ticks, j), ticks[j].time, delay, At(p, delay, equity, ticks, k))
  {
    EveryTickFollows(p, delay, equity, ticks, k - 1);
    if k - 1 > j { ExitWaits(p, delay, equity, ticks, j, k - 1); }
    ExitTick(At(p, delay, equity, ticks, k - 1), delay, ticks[k - 1], At(p, delay, equity, ticks, k),
             At(p, delay, equity, ticks, j), ticks[j].time);
  }

  /** A wanted exit becomes the next trade: of that position, with the pips and the time of the tick that fills it. */
  lemma ExitIsTaken(p: Params, delay: int, equity: Option<real>, ticks: seq<TickInput>, j: nat, k: nat)
    requires j < |ticks| && FirstFrom(ticks, j, k, ticks[j].time + delay) && Reaches(p, delay, equity, ticks, k + 1)
    requires Reaches(p, delay, equity, ticks, j) && ExitsNow(At(p, delay, equity, ticks, j), ticks[j])
    ensures var was, now := At(p, delay, equity, ticks, j).books, At(p, delay, equity, ticks, k + 1).books;
            && was.positions != []
            && AddsTrade(was.trades, now.trades, was.positions[0], ticks[k].pips(was.positions[0].id), ticks[k].time)
            && now.positions == []
  {
    EveryTickFollows(p, delay, equity, ticks, k);
    if k > j { ExitWaits(p, delay, equity, ticks, j, k); }
    ExitTick(At(p, delay, equity, ticks, k), delay, ticks[k], At(p, delay, equity, ticks, k + 1),
             At(p, delay, equity, ticks, j), ticks[j].time);
  }

  /** Two trades of a new engine without delay: entry, exit and entry again, each at its own bar. */
  lemma EntersAgain(p: Params, pips: nat -> real)
    ensures var ticks := [TickInput(60_000, true, {}, Some(1000.0), pips), TickInput(120_000, true, {0}, None, pips),
                          TickInput(180_000, true, {}, Some(2000.0), pips)];
            Run(Start(None), p, 0, ticks).Ok?
            && Run(Start(None), p, 0, ticks).value.books.entered == [Holding(0, 1000.0, 60_000), Holding(1, 2000.0, 180_000)]
  {
    var ticks := [TickInput(60_000, true, {}, Some(1000.0), pips), TickInput(120_000, true, {0}, None, pips),
                  TickInput(180_000, true, {}, Some(2000.0), pips)];
    NoDelayNoClash(p, 0, None, ticks);
    assert ticks[..3] == ticks && ticks[..0] == [];
    EveryTickFollows(p, 0, None, ticks, 2);
    EveryTickFollows(p, 0, None, ticks, 1);
    EveryTickFollows(p, 0, None, ticks, 0);
  }

  // ---------------------------------------------------------------- The end of a run

  lemma SettleKeeps(s: State, p: Params, delay: int, base: real, t: TickInput)
    requires Sound(s, p, delay, base)
    ensures Telescopes(Settled(s, p, t).books, p, base) && FillsWait(Settled(s, p, t).fills, delay)
    ensures Settled(s, p, t).books.entered == s.books.entered
  {
    if s.orders.exit.Some? {
      var exit := s.orders.exit.value;
      ExitTelescopes(s.books, p, base, t.pips(exit.position.id), t.time);
    }
  }

  /** The end of a run: the last position, its exit pending or not, is closed at the last tick; a pending entry opens none. */
  lemma LastPositionIsClosed(p: Params, delay: int, equity: Option<real>, ticks: seq<TickInput>)
    requires ticks != [] && Run(Start(equity), p, delay, ticks).Ok?
    ensures var s, last := Run(Start(equity), p, delay, ticks).value, ticks[|ticks| - 1];
            ClosesAll(s.books, Finished(s, p, ticks).books, last.pips, last.time)
  {
    RunKeeps(p, delay, equity, ticks);
    var s, last := Run(Start(equity), p, delay, ticks).value, ticks[|ticks| - 1];
    if s.orders.exit.Some? { ExitCloses(s.books, p, last.pips(s.books.positions[0].id), last.time); }
    EndClosesAll(Settled(s, p, last).books, p, last.pips, last.time);
  }

  /**
   Equity is conserved over every completed run: no position is open, trades are one-to-one with the
   filled entries and numbered from 0, each starts from the capital the one before left, and with
   compounding the final equity is the starting one plus the sum of all amounts.
   */
  lemma CompletedRunConserves(p: Params, delay: int, equity: Option<real>, ticks: seq<TickInput>)
    requires Run(Start(equity), p, delay, ticks).Ok?
    ensures var s := Finished(Run(Start(equity), p, delay, ticks).value, p, ticks);
            && s.books.positions == [] && |s.books.trades| == |s.books.entered|
            && Telescopes(s.books, p, Base(p, equity)) && FillsWait(s.fills, delay)
            && s.orders == NO_ORDERS
            && (equity.Some? ==> s.books.equity.Some?
                                 && s.books.equity.value == equity.value + TotalAmount(s.books.trades))
  {
    RunKeeps(p, delay, equity, ticks);
    RunKeepsCompounding(p, delay, equity, ticks);
    var s := Run(Start(equity), p, delay, ticks).value;
    var base := Base(p, equity);
    if ticks != [] {
      var last := ticks[|ticks| - 1];
      SettleKeeps(s, p, delay, base, last);
      EndTelescopes(Settled(s, p, last).books, p, base, last.pips, last.time);
      ForceKeepsCompounding(Settled(s, p, last).books, p, Settled(s, p, last).books.positions, last.pips, last.time);
    }
    var end := Finished(s, p, ticks);
    if equity.Some? {
      EquityIsSum(end.books, p, base, |end.books.trades|);
      assert end.books.trades[..|end.books.trades|] == end.books.trades;
    }
  }

  lemma {:induction false} RunKeepsCompounding(p: Params, delay: int, equity: Option<real>, ticks: seq<TickInput>)
    ensures Run(Start(equity), p, delay, ticks).Ok? ==>
              Run(Start(equity), p, delay, ticks).value.books.equity.Some? == equity.Some?
  {
    if ticks != [] { RunKeepsCompounding(p, delay, equity, ticks[..|ticks| - 1]); }
  }
}
