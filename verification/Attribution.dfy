/**
 Hedge-latency attribution. The pool of fills not yet covered by a hedge is never
 stored: it is recomputed from three tables. The stated rules describe a pool that is
 updated event by event; this module shows when the two are the same pool.
 */
module Attribution {
  import opened Common

  datatype UncoveredFill = UncoveredFill(block: Time, seen: Time)

  /** A timestamp column; None when its text does not parse. */
  type Column = Option<Time>

  datatype FillRow = FillRow(trade: TradeId, block: Column, seen: Column)

  datatype Window = Window(earliestBlock: Time, latestSeen: Time)

  datatype CycleRow = CycleRow(
    order: OrderId,
    placed: Column,
    covered: int,
    window: Option<Window>,
    filledAt: Option<Time>,
    failedAt: Option<Time>)

  /** The rows of one symbol, each table in insertion order. */
  datatype Tables = Tables(fills: seq<FillRow>, cycles: seq<CycleRow>, resets: seq<Time>)

  datatype Error = NegativeCount

  // ----- The recompute -----

  function LatestReset(resets: seq<Time>): Option<Time>
  {
    if resets == [] then None
    else
      var earlier := LatestReset(resets[..|resets| - 1]);
      var last := resets[|resets| - 1];
      Some(if earlier.Some? && earlier.value > last then earlier.value else last)
  }

  predicate AfterReset(reset: Option<Time>, at: Time) { reset.None? || at > reset.value }

  predicate Counts(row: FillRow, reset: Option<Time>)
  {
    row.block.Some? && row.seen.Some? && AfterReset(reset, row.seen.value)
  }

  /** Those of the first n fills that still drive hedging, in arrival order; malformed
      rows are skipped. */
  function KeptOf(rows: seq<FillRow>, n: nat, reset: Option<Time>): seq<UncoveredFill>
    requires n <= |rows|
  {
    if n == 0 then []
    else if Counts(rows[n - 1], reset)
    then KeptOf(rows, n - 1, reset) + [UncoveredFill(rows[n - 1].block.value, rows[n - 1].seen.value)]
    else KeptOf(rows, n - 1, reset)
  }

  function Kept(rows: seq<FillRow>, reset: Option<Time>): seq<UncoveredFill> { KeptOf(rows, |rows|, reset) }

  /** A cycle placed after the reset that is filled or still open. */
  predicate Consumes(row: CycleRow, reset: Option<Time>)
  {
    && row.placed.Some? && AfterReset(reset, row.placed.value)
    && (row.filledAt.Some? || row.failedAt.None?)
  }

  function Weight(row: CycleRow, reset: Option<Time>): int
  {
    if Consumes(row, reset) then row.covered else 0
  }

  /** What the first n cycles consume. */
  function Before(rows: seq<CycleRow>, n: nat, reset: Option<Time>): int
    requires n <= |rows|
  {
    if n == 0 then 0 else Before(rows, n - 1, reset) + Weight(rows[n - 1], reset)
  }

  function Consumed(rows: seq<CycleRow>, reset: Option<Time>): int { Before(rows, |rows|, reset) }

  predicate WellCounted(rows: seq<CycleRow>, reset: Option<Time>)
  {
    forall i :: 0 <= i < |rows| ==> Weight(rows[i], reset) >= 0
  }

  function DropUpTo(queue: seq<UncoveredFill>, count: int): seq<UncoveredFill>
    requires count >= 0
  {
    if count < |queue| then queue[count..] else []
  }

  /** Counts add up to counts, and more cycles never consume less. */
  lemma {:induction false} BeforeGrows(rows: seq<CycleRow>, n: nat, m: nat, reset: Option<Time>)
    requires WellCounted(rows, reset) && n <= m <= |rows|
    ensures 0 <= Before(rows, n, reset) <= Before(rows, m, reset)
    decreases m
  {
    if m > 0 {
      BeforeGrows(rows, if n < m then n else m - 1, m - 1, reset);
    }
  }

  /** The recomputed pool, without reference to any order of the cycles: what is left of
      the kept fills once the consumed total has been dropped from the front. */
  function Uncovered(t: Tables): Result<seq<UncoveredFill>, Error>
  {
    var reset := LatestReset(t.resets);
    if !WellCounted(t.cycles, reset) then Err(NegativeCount)
    else
      BeforeGrows(t.cycles, 0, |t.cycles|, reset);
      Ok(DropUpTo(Kept(t.fills, reset), Consumed(t.cycles, reset)))
  }

  /** Only the first n rows matter. */
  lemma {:induction false} BeforeFrame(rows: seq<CycleRow>, others: seq<CycleRow>, n: nat, reset: Option<Time>)
    requires n <= |rows| && n <= |others| && forall i :: 0 <= i < n ==> rows[i] == others[i]
    ensures Before(rows, n, reset) == Before(others, n, reset)
  {
    if n > 0 { BeforeFrame(rows, others, n - 1, reset); }
  }

  lemma {:induction false} BeforeUpdate(rows: seq<CycleRow>, k: nat, row: CycleRow, n: nat, reset: Option<Time>)
    requires k < |rows| && n <= |rows|
    ensures Before(rows[k := row], n, reset) == Before(rows, n, reset)
              + (if k < n then Weight(row, reset) - Weight(rows[k], reset) else 0)
  {
    if n > 0 { BeforeUpdate(rows, k, row, n - 1, reset); }
  }

  lemma {:induction false} BeforeDelete(rows: seq<CycleRow>, k: nat, n: nat, reset: Option<Time>)
    requires k < |rows| && n < |rows|
    ensures Before(rows[..k] + rows[k + 1..], n, reset) ==
            if n <= k then Before(rows, n, reset) else Before(rows, n + 1, reset) - Weight(rows[k], reset)
  {
    if n <= k {
      BeforeFrame(rows, rows[..k] + rows[k + 1..], n, reset);
    } else {
      BeforeDelete(rows, k, n - 1, reset);
      assert (rows[..k] + rows[k + 1..])[n - 1] == rows[n];
    }
  }

  lemma RemoveAt(rows: seq<CycleRow>, k: nat)
    requires k < |rows|
    ensures multiset(rows[..k] + rows[k + 1..]) == multiset(rows) - multiset{rows[k]}
  {
    assert rows == rows[..k] + [rows[k]] + rows[k + 1..];
  }

  /** Where the last row of one ordering sits in another. */
  lemma MatchLast(left: seq<CycleRow>, right: seq<CycleRow>) returns (k: nat)
    requires multiset(left) == multiset(right) && left != []
    ensures k < |right| && right[k] == left[|left| - 1]
    ensures multiset(left[..|left| - 1]) == multiset(right[..k] + right[k + 1..])
  {
    assert left[|left| - 1] in multiset(right);
    k :| 0 <= k < |right| && right[k] == left[|left| - 1];
    RemoveAt(right, k);
    RemoveAt(left, |left| - 1);
    assert left[..|left| - 1] + left[|left|..] == left[..|left| - 1];
  }

  /** The order in which the query returns the cycles is irrelevant. */
  lemma {:induction false} ConsumedIgnoresOrder(left: seq<CycleRow>, right: seq<CycleRow>, reset: Option<Time>)
    requires multiset(left) == multiset(right)
    ensures Consumed(left, reset) == Consumed(right, reset)
    decreases |left|
  {
    if left == [] {
      assert |multiset(right)| == 0;
    } else {
      var k := MatchLast(left, right);
      ConsumedIgnoresOrder(left[..|left| - 1], right[..k] + right[k + 1..], reset);
      BeforeFrame(left[..|left| - 1], left, |left| - 1, reset);
      BeforeDelete(right, k, |right| - 1, reset);
    }
  }

  lemma WellCountedIgnoresOrder(left: seq<CycleRow>, right: seq<CycleRow>, reset: Option<Time>)
    requires multiset(left) == multiset(right) && WellCounted(left, reset)
    ensures WellCounted(right, reset)
  {
    forall i | 0 <= i < |right| ensures Weight(right[i], reset) >= 0 {
      assert right[i] in multiset(left);
    }
  }

  /** For arbitrary tables: the pool is a suffix of the kept fills, and any reordering of
      the cycles gives the same pool. */
  lemma UncoveredIsSuffix(t: Tables, other: Tables)
    requires other.fills == t.fills && other.resets == t.resets && multiset(other.cycles) == multiset(t.cycles)
    ensures Uncovered(other) == Uncovered(t)
    ensures Uncovered(t).Ok? ==>
              var kept := Kept(t.fills, LatestReset(t.resets));
              |Uncovered(t).value| <= |kept| && Uncovered(t).value == kept[|kept| - |Uncovered(t).value|..]
  {
    var reset := LatestReset(t.resets);
    ConsumedIgnoresOrder(other.cycles, t.cycles, reset);
    if WellCounted(t.cycles, reset) {
      WellCountedIgnoresOrder(t.cycles, other.cycles, reset);
      BeforeGrows(t.cycles, 0, |t.cycles|, reset);
    }
    if WellCounted(other.cycles, reset) {
      WellCountedIgnoresOrder(other.cycles, t.cycles, reset);
    }
  }

  /** The recompute as it runs: walk the cycles in query order, draining the front of a
      queue. `rows` is whatever order the query returned. */
  method UncoveredFills(t: Tables, rows: seq<CycleRow>) returns (r: Result<seq<UncoveredFill>, Error>)
    requires multiset(rows) == multiset(t.cycles)
    ensures r == Uncovered(t)
  {
    var reset := LatestReset(t.resets);
    var queue := Kept(t.fills, reset);
    ghost var kept := queue;
    for i := 0 to |rows|
      invariant (forall j :: 0 <= j < i ==> Weight(rows[j], reset) >= 0) && Before(rows, i, reset) >= 0
      invariant queue == DropUpTo(kept, Before(rows, i, reset))
    {
      var row := rows[i];
      if row.placed.None? { continue; }
      if reset.Some? && row.placed.value <= reset.value { continue; }
      var consumes := row.filledAt.Some? || row.failedAt.None?;
      if consumes {
        if row.covered < 0 {
          assert Weight(rows[i], reset) < 0;
          if WellCounted(t.cycles, reset) {
            WellCountedIgnoresOrder(t.cycles, rows, reset);
          }
          return Err(NegativeCount);
        }
        var count := if row.covered < |queue| then row.covered else |queue|;
        queue := queue[count..];
      }
    }
    WellCountedIgnoresOrder(rows, t.cycles, reset);
    ConsumedIgnoresOrder(rows, t.cycles, reset);
    return Ok(queue);
  }

  /** The covered batch of a placement: its earliest block time and latest sighting. */
  function CoveredFills(batch: seq<UncoveredFill>): Option<Window>
  {
    if batch == [] then None
    else
      var last := batch[|batch| - 1];
      match CoveredFills(batch[..|batch| - 1])
      case None => Some(Window(last.block, last.seen))
      case Some(w) => Some(Window(if last.block < w.earliestBlock then last.block else w.earliestBlock,
                                  if last.seen > w.latestSeen then last.seen else w.latestSeen))
  }

  /** The window is tight: it bounds every fill of the batch and both ends are attained. */
  lemma {:induction false} WindowIsTight(batch: seq<UncoveredFill>)
    ensures CoveredFills(batch).None? <==> batch == []
    ensures batch != [] ==>
              var w := CoveredFills(batch).value;
              && (forall i :: 0 <= i < |batch| ==> w.earliestBlock <= batch[i].block && batch[i].seen <= w.latestSeen)
              && (exists i :: 0 <= i < |batch| && batch[i].block == w.earliestBlock)
              && (exists i :: 0 <= i < |batch| && batch[i].seen == w.latestSeen)
  {
    if |batch| > 1 {
      var front := batch[..|batch| - 1];
      WindowIsTight(front);
      var i :| 0 <= i < |front| && front[i].block == CoveredFills(front).value.earliestBlock;
      var j :| 0 <= j < |front| && front[j].seen == CoveredFills(front).value.latestSeen;
      assert batch[i] == front[i] && batch[j] == front[j];
      assert batch[|batch| - 1].block == batch[|batch| - 1].block;
      forall k | 0 <= k < |batch|
        ensures CoveredFills(batch).value.earliestBlock <= batch[k].block &&
            batch[k].seen <= CoveredFills(batch).value.latestSeen
      {
        if k < |front| { assert front[k] == batch[k]; }
      }
    } else if |batch| == 1 {
      assert CoveredFills(batch[..0]).None?;
      assert batch[0].block == CoveredFills(batch).value.earliestBlock;
    }
  }

  // ----- The reactor: what each event writes -----

  datatype Event =
    | Fill(trade: TradeId, block: Time, seen: Time)
    | Placed(order: OrderId, at: Time)
    | Filled(order: OrderId, at: Time)
    | Failed(order: OrderId, at: Time)
    | Cancelled(order: OrderId)
    | Adjusted(at: Time)

  predicate HasFill(rows: seq<FillRow>, trade: TradeId)
  {
    exists i :: 0 <= i < |rows| && rows[i].trade == trade
  }

  /** The row keyed by an order id, or the table's length. */
  function Find(cycles: seq<CycleRow>, o: OrderId): (k: nat)
    ensures k <= |cycles|
    ensures k < |cycles| ==> cycles[k].order == o
    ensures forall j :: 0 <= j < k ==> cycles[j].order != o
  {
    FindFrom(cycles, o, 0)
  }

  function FindFrom(cycles: seq<CycleRow>, o: OrderId, i: nat): (k: nat)
    requires i <= |cycles|
    ensures i <= k <= |cycles|
    ensures k < |cycles| ==> cycles[k].order == o
    ensures forall j :: i <= j < k ==> cycles[j].order != o
    decreases |cycles| - i
  {
    if i == |cycles| || cycles[i].order == o then i else FindFrom(cycles, o, i + 1)
  }

  predicate Present(t: Tables, o: OrderId) { Find(t.cycles, o) < |t.cycles| }

  predicate Ended(row: CycleRow) { row.filledAt.Some? || row.failedAt.Some? }

  function React(t: Tables, event: Event): Tables
  {
    match event
    case Fill(trade, block, seen) =>
      if trade.logIndex > I64_MAX || HasFill(t.fills, trade) then t
      else t.(fills := t.fills + [FillRow(trade, Some(block), Some(seen))])
    case Placed(o, at) =>
      (match Uncovered(t)
       case Err(_) => t
       case Ok(batch) =>
         if Present(t, o) then t
         else t.(cycles := t.cycles + [CycleRow(o, Some(at), |batch|, CoveredFills(batch), None, None)]))
    case Filled(o, at) =>
      var k := Find(t.cycles, o);
      if k < |t.cycles| && t.cycles[k].filledAt.None?
      then t.(cycles := t.cycles[k := t.cycles[k].(filledAt := Some(at))])
      else t
    case Failed(o, at) =>
      var k := Find(t.cycles, o);
      if k < |t.cycles| && !Ended(t.cycles[k])
      then t.(cycles := t.cycles[k := t.cycles[k].(failedAt := Some(at))])
      else t
    case Cancelled(o) =>
      var k := Find(t.cycles, o);
      if k < |t.cycles| && !Ended(t.cycles[k])
      then t.(cycles := t.cycles[..k] + t.cycles[k + 1..])
      else t
    case Adjusted(at) =>
      if at in t.resets then t else t.(resets := t.resets + [at])
  }

  function Run(events: seq<Event>): Tables
  {
    if events == [] then Tables([], [], [])
    else React(Run(events[..|events| - 1]), events[|events| - 1])
  }

  // ----- The stated rules: a pool updated event by event -----

  datatype Pool = Pool(waiting: seq<UncoveredFill>, inFlight: map<OrderId, seq<UncoveredFill>>)

  function Follow(pool: Pool, event: Event): Pool
  {
    match event
    case Fill(_, block, seen) => pool.(waiting := pool.waiting + [UncoveredFill(block, seen)])
    case Placed(o, _) => Pool([], pool.inFlight[o := pool.waiting])
    case Filled(o, _) => pool.(inFlight := pool.inFlight - {o})
    case Failed(o, _) => Returned(pool, o)
    case Cancelled(o) => Returned(pool, o)
    case Adjusted(_) => Pool([], map[])
  }

  /** A hedge that covered nothing gives its batch back, ahead of what came since. */
  function Returned(pool: Pool, o: OrderId): Pool
  {
    if o in pool.inFlight then Pool(pool.inFlight[o] + pool.waiting, pool.inFlight - {o}) else pool
  }

  function PoolAfter(events: seq<Event>): Pool
  {
    if events == [] then Pool([], map[])
    else Follow(PoolAfter(events[..|events| - 1]), events[|events| - 1])
  }

  // ----- Which streams -----

  function Clock(event: Event): Option<Time>
  {
    match event
    case Fill(_, _, seen) => Some(seen)
    case Placed(_, at) => Some(at)
    case Adjusted(at) => Some(at)
    case _ => None
  }

  predicate LaterThanAll(events: seq<Event>, at: Time)
  {
    forall i :: 0 <= i < |events| && Clock(events[i]).Some? ==> Clock(events[i]).value < at
  }

  predicate NewTrade(events: seq<Event>, trade: TradeId)
  {
    forall i :: 0 <= i < |events| && events[i].Fill? ==> events[i].trade != trade
  }

  predicate NewOrder(events: seq<Event>, o: OrderId)
  {
    forall i :: 0 <= i < |events| && events[i].Placed? ==> events[i].order != o
  }

  /** The broker reports a fill for a cycle already stamped failed. */
  predicate LateFill(t: Tables, event: Event)
  {
    event.Filled? && Present(t, event.order) &&
    t.cycles[Find(t.cycles, event.order)].filledAt.None? && t.cycles[Find(t.cycles, event.order)].failedAt.Some?
  }

  /** Strictly increasing times, new ids, and no failed cycle later stamped filled. */
  predicate Orderly(events: seq<Event>)
  {
    if events == [] then true
    else
      var before := events[..|events| - 1];
      var event := events[|events| - 1];
      && Orderly(before)
      && (Clock(event).Some? ==> LaterThanAll(before, Clock(event).value))
      && (event.Fill? ==> NewTrade(before, event.trade) && event.trade.logIndex <= I64_MAX)
      && (event.Placed? ==> NewOrder(before, event.order))
      && !LateFill(Run(before), event)
  }

  /** And never a placement while another batch is in flight. */
  predicate OneOpenCycle(events: seq<Event>)
  {
    if events == [] then true
    else
      var before := events[..|events| - 1];
      OneOpenCycle(before) && (events[|events| - 1].Placed? ==> PoolAfter(before).inFlight == map[])
  }

  // ----- What rows remember of the stream -----

  predicate RowsBefore(t: Tables, at: Time)
  {
    && (forall i :: 0 <= i < |t.fills| ==>
        t.fills[i].block.Some? && t.fills[i].seen.Some? && t.fills[i].seen.value < at)
    && (forall i :: 0 <= i < |t.cycles| ==> t.cycles[i].placed.Some? && t.cycles[i].placed.value < at)
    && (forall i :: 0 <= i < |t.resets| ==> t.resets[i] < at)
  }

  lemma {:induction false} RowsAreOld(events: seq<Event>, at: Time)
    requires LaterThanAll(events, at)
    ensures RowsBefore(Run(events), at)
  {
    if events != [] {
      var before, event := events[..|events| - 1], events[|events| - 1];
      assert LaterThanAll(before, at);
      assert Clock(event).Some? ==> Clock(event).value < at;
      RowsAreOld(before, at);
    }
  }

  lemma {:induction false} NewTradeHasNoRow(events: seq<Event>, trade: TradeId)
    requires NewTrade(events, trade)
    ensures !HasFill(Run(events).fills, trade)
  {
    if events != [] {
      var before, event := events[..|events| - 1], events[|events| - 1];
      assert NewTrade(before, trade);
      assert event.Fill? ==> event.trade != trade;
      NewTradeHasNoRow(before, trade);
      assert forall i :: 0 <= i < |Run(before).fills| ==> Run(before).fills[i].trade != trade;
    }
  }

  lemma {:induction false} NewOrderHasNoRow(events: seq<Event>, o: OrderId)
    requires NewOrder(events, o)
    ensures forall i :: 0 <= i < |Run(events).cycles| ==> Run(events).cycles[i].order != o
  {
    if events != [] {
      var before, event := events[..|events| - 1], events[|events| - 1];
      assert NewOrder(before, o);
      assert event.Placed? ==> event.order != o;
      NewOrderHasNoRow(before, o);
    }
  }

  predicate UniqueOrders(cycles: seq<CycleRow>)
  {
    forall i, j :: 0 <= i < j < |cycles| ==> cycles[i].order != cycles[j].order
  }

  lemma ReactKeepsUnique(t: Tables, event: Event)
    requires UniqueOrders(t.cycles)
    ensures UniqueOrders(React(t, event).cycles)
  {
  }

  lemma {:induction false} OrdersAreUnique(events: seq<Event>)
    ensures UniqueOrders(Run(events).cycles)
  {
    if events != [] {
      OrdersAreUnique(events[..|events| - 1]);
      ReactKeepsUnique(Run(events[..|events| - 1]), events[|events| - 1]);
    }
  }
}
