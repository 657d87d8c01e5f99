/**
 The promises of attribution: the recompute refines the stated rules, no fill is lost or
 counted twice, and redelivering events changes nothing.
 */
module AttributionTheorems {
  import opened Common
  import opened Attribution

  // ----- Conservation: any number of open cycles -----

  function ResetOf(t: Tables): Option<Time> { LatestReset(t.resets) }

  /** Every fill since the reset is either in the pool or covered by a consuming cycle. */
  predicate Conserves(t: Tables)
  {
    && (forall i :: 0 <= i < |t.cycles| ==> t.cycles[i].covered >= 0)
    && 0 <= Consumed(t.cycles, ResetOf(t)) <= |Kept(t.fills, ResetOf(t))|
  }

  lemma ConservesMeans(t: Tables)
    requires Conserves(t)
    ensures Uncovered(t).Ok? && Uncovered(t).value == Kept(t.fills, ResetOf(t))[Consumed(t.cycles, ResetOf(t))..]
  {
  }

  lemma {:induction false} ResetIsLatest(resets: seq<Time>)
    ensures LatestReset(resets).Some? <==> resets != []
    ensures resets != [] ==> LatestReset(resets).value in resets
    ensures forall i :: 0 <= i < |resets| ==> resets[i] <= LatestReset(resets).value
  {
    if resets != [] {
      ResetIsLatest(resets[..|resets| - 1]);
    }
  }

  /** A reset later than every row empties the pool. */
  lemma {:induction false} ResetEmpties(fills: seq<FillRow>, n: nat, at: Time)
    requires n <= |fills| && forall i :: 0 <= i < |fills| ==> fills[i].seen.Some? && fills[i].seen.value < at
    ensures KeptOf(fills, n, Some(at)) == []
  {
    if n > 0 {
      ResetEmpties(fills, n - 1, at);
    }
  }

  lemma {:induction false} KeptFrame(rows: seq<FillRow>, others: seq<FillRow>, n: nat, reset: Option<Time>)
    requires n <= |rows| && n <= |others| && forall i :: 0 <= i < n ==> rows[i] == others[i]
    ensures KeptOf(rows, n, reset) == KeptOf(others, n, reset)
  {
    if n > 0 { KeptFrame(rows, others, n - 1, reset); }
  }

  /** And forgets every cycle. */
  lemma {:induction false} ResetForgets(cycles: seq<CycleRow>, n: nat, at: Time)
    requires n <= |cycles| && forall i :: 0 <= i < |cycles| ==> cycles[i].placed.Some? && cycles[i].placed.value < at
    ensures Before(cycles, n, Some(at)) == 0
  {
    if n > 0 {
      ResetForgets(cycles, n - 1, at);
    }
  }

  lemma AdjustedResets(t: Tables, at: Time)
    requires RowsBefore(t, at)
    ensures var after := React(t, Adjusted(at));
            && ResetOf(after) == Some(at)
            && Kept(after.fills, ResetOf(after)) == [] && Consumed(after.cycles, ResetOf(after)) == 0
  {
    ResetIsLatest(t.resets);
    var after := React(t, Adjusted(at));
    assert after.resets[..|after.resets| - 1] == t.resets;
    ResetEmpties(t.fills, |t.fills|, at);
    ResetForgets(t.cycles, |t.cycles|, at);
  }

  lemma FillExtends(t: Tables, event: Event)
    requires event.Fill? && event.trade.logIndex <= I64_MAX
    requires !HasFill(t.fills, event.trade) && RowsBefore(t, event.seen)
    ensures var after := React(t, event);
            && ResetOf(after) == ResetOf(t) && after.cycles == t.cycles
            && Kept(after.fills, ResetOf(t)) == Kept(t.fills, ResetOf(t)) + [UncoveredFill(event.block, event.seen)]
  {
    ResetIsLatest(t.resets);
    KeptFrame(t.fills, React(t, event).fills, |t.fills|, ResetOf(t));
  }

  lemma PlacedCovers(t: Tables, event: Event)
    requires event.Placed? && Conserves(t) && !Present(t, event.order) && RowsBefore(t, event.at)
    ensures var after := React(t, event);
            && ResetOf(after) == ResetOf(t) && after.fills == t.fills
            && |after.cycles| == |t.cycles| + 1 && after.cycles[..|t.cycles|] == t.cycles
            && Consumed(after.cycles, ResetOf(t)) == |Kept(t.fills, ResetOf(t))|
            && Consumes(after.cycles[|t.cycles|], ResetOf(t))
            && after.cycles[|t.cycles|].covered == |Kept(t.fills, ResetOf(t))| - Consumed(t.cycles, ResetOf(t))
  {
    ConservesMeans(t);
    ResetIsLatest(t.resets);
    BeforeFrame(t.cycles, React(t, event).cycles, |t.cycles|, ResetOf(t));
  }

  predicate Outcome(event: Event) { event.Filled? || event.Failed? || event.Cancelled? }

  /** An outcome touches at most the one row of its order. */
  lemma OutcomeWeighs(t: Tables, event: Event)
    requires Outcome(event)
    ensures var after := React(t, event);
            var k := Find(t.cycles, event.order);
            && after.fills == t.fills && after.resets == t.resets
            && (after != t ==> k < |t.cycles|)
            && (after != t && !event.Filled? ==>
                Consumed(after.cycles, ResetOf(t)) == Consumed(t.cycles, ResetOf(t)) - Weight(t.cycles[k], ResetOf(t)))
            && (after != t && event.Filled? ==>
                  Consumed(after.cycles, ResetOf(t)) ==
                  Consumed(t.cycles, ResetOf(t)) +
                  (if LateFill(t, event) && AfterResetRow(t.cycles[k], ResetOf(t)) then t.cycles[k].covered else 0))
  {
    var after := React(t, event);
    var k := Find(t.cycles, event.order);
    if after != t {
      if event.Cancelled? {
        BeforeDelete(t.cycles, k, |t.cycles| - 1, ResetOf(t));
      } else {
        BeforeUpdate(t.cycles, k, after.cycles[k], |t.cycles|, ResetOf(t));
      }
    }
  }

  predicate AfterResetRow(row: CycleRow, reset: Option<Time>)
  {
    row.placed.Some? && AfterReset(reset, row.placed.value)
  }

  /** A part of a total of counts is no larger than the total. */
  lemma PartOfConsumed(cycles: seq<CycleRow>, k: nat, reset: Option<Time>)
    requires k < |cycles| && forall i :: 0 <= i < |cycles| ==> cycles[i].covered >= 0
    ensures 0 <= Weight(cycles[k], reset) <= Consumed(cycles, reset)
  {
    BeforeGrows(cycles, 0, k, reset);
    BeforeGrows(cycles, k + 1, |cycles|, reset);
  }

  lemma OutcomeConserves(t: Tables, event: Event)
    requires Conserves(t) && Outcome(event) && !LateFill(t, event)
    ensures Conserves(React(t, event))
  {
    OutcomeWeighs(t, event);
    if Present(t, event.order) {
      PartOfConsumed(t.cycles, Find(t.cycles, event.order), ResetOf(t));
    }
  }

  lemma FillConserves(t: Tables, event: Event)
    requires Conserves(t)
    requires event.Fill? && event.trade.logIndex <= I64_MAX
    requires !HasFill(t.fills, event.trade) && RowsBefore(t, event.seen)
    ensures Conserves(React(t, event))
  {
    FillExtends(t, event);
  }

  lemma PlacedConserves(t: Tables, event: Event)
    requires Conserves(t) && event.Placed? && !Present(t, event.order) && RowsBefore(t, event.at)
    ensures Conserves(React(t, event))
  {
    PlacedCovers(t, event);
  }

  lemma AdjustedConserves(t: Tables, at: Time)
    requires Conserves(t) && RowsBefore(t, at)
    ensures Conserves(React(t, Adjusted(at)))
  {
    AdjustedResets(t, at);
  }

  /** Over every orderly stream, with any number of cycles open at once: the fills since
      the last reset are the pool plus what the consuming cycles cover, so dropping more
      fills than there are never happens. */
  lemma {:induction false} EveryRunConserves(events: seq<Event>)
    requires Orderly(events)
    ensures Conserves(Run(events))
    ensures Uncovered(Run(events)).Ok?
    ensures |Kept(Run(events).fills, ResetOf(Run(events)))| ==
            |Uncovered(Run(events)).value| + Consumed(Run(events).cycles, ResetOf(Run(events)))
  {
    if events != [] {
      var before, event := events[..|events| - 1], events[|events| - 1];
      EveryRunConserves(before);
      if Clock(event).Some? { RowsAreOld(before, Clock(event).value); }
      match event {
        case Fill(trade, _, _) => NewTradeHasNoRow(before, trade); FillConserves(Run(before), event);
        case Placed(o, _) => NewOrderHasNoRow(before, o); PlacedConserves(Run(before), event);
        case Adjusted(at) => AdjustedConserves(Run(before), at);
        case _ => OutcomeConserves(Run(before), event);
      }
    }
    ConservesMeans(Run(events));
  }

  // ----- Refinement: the recompute against the stated rules -----

  predicate Open(row: CycleRow, reset: Option<Time>)
  {
    AfterResetRow(row, reset) && !Ended(row)
  }

  predicate Describes(row: CycleRow, batch: seq<UncoveredFill>, reset: Option<Time>)
  {
    Open(row, reset) && row.covered == |batch| && row.window == CoveredFills(batch)
  }

  /** Where the fills a cycle consumes begin: behind everything older cycles consume. */
  function StartOf(cycles: seq<CycleRow>, o: OrderId, reset: Option<Time>): int
  {
    Before(cycles, Find(cycles, o), reset)
  }

  /** The cycle's row describes the batch, which is the stretch of fills it consumes. */
  predicate Tiles(kept: seq<UncoveredFill>, cycles: seq<CycleRow>, o: OrderId, batch: seq<UncoveredFill>,
                  reset: Option<Time>)
  {
    var start := StartOf(cycles, o, reset);
    && Find(cycles, o) < |cycles| && Describes(cycles[Find(cycles, o)], batch, reset)
    && 0 <= start && start + |batch| <= |kept| && batch == kept[start..start + |batch|]
  }

  predicate AllTiled(kept: seq<UncoveredFill>, cycles: seq<CycleRow>,
                     inFlight: map<OrderId, seq<UncoveredFill>>, reset: Option<Time>)
  {
    forall o :: o in inFlight ==> Tiles(kept, cycles, o, inFlight[o], reset)
  }

  predicate OpenInFlight(cycles: seq<CycleRow>, inFlight: map<OrderId, seq<UncoveredFill>>, reset: Option<Time>)
  {
    forall i :: 0 <= i < |cycles| && Open(cycles[i], reset) ==> cycles[i].order in inFlight
  }

  /** The pool is the unconsumed tail, and each batch in flight tiles its own stretch. */
  predicate Linked(t: Tables, pool: Pool)
  {
    && Conserves(t)
    && pool.waiting == Kept(t.fills, ResetOf(t))[Consumed(t.cycles, ResetOf(t))..]
    && OpenInFlight(t.cycles, pool.inFlight, ResetOf(t))
    && AllTiled(Kept(t.fills, ResetOf(t)), t.cycles, pool.inFlight, ResetOf(t))
  }

  /** What cycles recorded after this order's still consume. */
  function LaterWeight(t: Tables, o: OrderId): int
    requires Present(t, o)
  {
    Consumed(t.cycles, ResetOf(t)) - Before(t.cycles, Find(t.cycles, o) + 1, ResetOf(t))
  }

  /** A cycle that covers something is given back while younger ones still consume. */
  predicate OutOfOrder(t: Tables, event: Event)
  {
    && (event.Failed? || event.Cancelled?) && Present(t, event.order)
    && Open(t.cycles[Find(t.cycles, event.order)], ResetOf(t))
    && t.cycles[Find(t.cycles, event.order)].covered > 0 && LaterWeight(t, event.order) > 0
  }

  predicate InOrder(events: seq<Event>)
  {
    if events == [] then true
    else
      var before := events[..|events| - 1];
      InOrder(before) && !OutOfOrder(Run(before), events[|events| - 1])
  }

  /** The recomputed pool is the pool of the stated rules, in the same order. */
  predicate Agrees(events: seq<Event>)
  {
    Uncovered(Run(events)) == Ok(PoolAfter(events).waiting)
  }

  lemma LinkedAgrees(t: Tables, pool: Pool)
    requires Linked(t, pool)
    ensures Uncovered(t) == Ok(pool.waiting)
  {
    ConservesMeans(t);
  }

  // Fills, placements and resets.

  lemma TileGrows(kept: seq<UncoveredFill>, fill: UncoveredFill, cycles: seq<CycleRow>, o: OrderId,
                  batch: seq<UncoveredFill>, reset: Option<Time>)
    requires Tiles(kept, cycles, o, batch, reset)
    ensures Tiles(kept + [fill], cycles, o, batch, reset)
  {
    var start := StartOf(cycles, o, reset);
    assert (kept + [fill])[start..start + |batch|] == kept[start..start + |batch|];
  }

  lemma FillLinks(t: Tables, pool: Pool, event: Event)
    requires Linked(t, pool)
    requires event.Fill? && event.trade.logIndex <= I64_MAX
    requires !HasFill(t.fills, event.trade) && RowsBefore(t, event.seen)
    ensures Linked(React(t, event), Follow(pool, event))
  {
    FillExtends(t, event);
    FillConserves(t, event);
    var kept, fill := Kept(t.fills, ResetOf(t)), UncoveredFill(event.block, event.seen);
    forall o | o in pool.inFlight ensures Tiles(kept + [fill], t.cycles, o, pool.inFlight[o], ResetOf(t)) {
      TileGrows(kept, fill, t.cycles, o, pool.inFlight[o], ResetOf(t));
    }
  }

  lemma PlacedRow(t: Tables, event: Event)
    requires event.Placed? && Conserves(t) && !Present(t, event.order) && RowsBefore(t, event.at)
    ensures var batch := Kept(t.fills, ResetOf(t))[Consumed(t.cycles, ResetOf(t))..];
            var row := CycleRow(event.order, Some(event.at), |batch|, CoveredFills(batch), None, None);
            && React(t, event) == t.(cycles := t.cycles + [row]) && Describes(row, batch, ResetOf(t))
  {
    ConservesMeans(t);
    ResetIsLatest(t.resets);
  }

  /** An older tile is not moved by a row recorded behind it. */
  lemma TileStays(kept: seq<UncoveredFill>, cycles: seq<CycleRow>, row: CycleRow, o: OrderId,
                  batch: seq<UncoveredFill>, reset: Option<Time>)
    requires Tiles(kept, cycles, o, batch, reset)
    ensures Tiles(kept, cycles + [row], o, batch, reset)
  {
    var k := Find(cycles, o);
    assert (cycles + [row])[k] == cycles[k];
    assert Find(cycles + [row], o) == k;
    BeforeFrame(cycles, cycles + [row], k, reset);
  }

  /** The new row's tile is the whole pool. */
  lemma NewTile(kept: seq<UncoveredFill>, cycles: seq<CycleRow>, row: CycleRow, batch: seq<UncoveredFill>,
                reset: Option<Time>)
    requires 0 <= Consumed(cycles, reset) <= |kept| && batch == kept[Consumed(cycles, reset)..]
    requires Describes(row, batch, reset) && Find(cycles, row.order) == |cycles|
    ensures Tiles(kept, cycles + [row], row.order, batch, reset)
  {
    assert (cycles + [row])[|cycles|] == row;
    assert Find(cycles + [row], row.order) == |cycles|;
    BeforeFrame(cycles, cycles + [row], |cycles|, reset);
  }

  lemma PlacedLinks(t: Tables, pool: Pool, event: Event)
    requires Linked(t, pool) && event.Placed? && !Present(t, event.order) && RowsBefore(t, event.at)
    ensures Linked(React(t, event), Follow(pool, event))
  {
    PlacedRow(t, event);
    PlacedCovers(t, event);
    PlacedConserves(t, event);
    var kept, after := Kept(t.fills, ResetOf(t)), React(t, event);
    var row := after.cycles[|t.cycles|];
    NewTile(kept, t.cycles, row, pool.waiting, ResetOf(t));
    forall o | o in Follow(pool, event).inFlight
      ensures Tiles(kept, after.cycles, o, Follow(pool, event).inFlight[o], ResetOf(t))
    {
      if o != event.order {
        TileStays(kept, t.cycles, row, o, pool.inFlight[o], ResetOf(t));
      }
    }
  }

  lemma AdjustedLinks(t: Tables, pool: Pool, at: Time)
    requires Linked(t, pool) && RowsBefore(t, at)
    ensures Linked(React(t, Adjusted(at)), Follow(pool, Adjusted(at)))
  {
    AdjustedResets(t, at);
    AdjustedConserves(t, at);
  }

  // Outcomes.

  /** After an outcome the row of its order, if still there, has ended; every other row
      is an old one. */
  lemma OutcomeEnds(t: Tables, event: Event, i: nat)
    requires Outcome(event) && UniqueOrders(t.cycles) && i < |React(t, event).cycles|
    ensures var row := React(t, event).cycles[i];
            if row.order == event.order then Ended(row) else row in t.cycles
  {
  }

  /** What an outcome takes off the consumed total. */
  function Removed(t: Tables, event: Event): int
    requires Outcome(event)
  {
    if (event.Failed? || event.Cancelled?) && Present(t, event.order) && !Ended(t.cycles[Find(t.cycles, event.order)])
    then Weight(t.cycles[Find(t.cycles, event.order)], ResetOf(t)) else 0
  }

  lemma OutcomeRemoves(t: Tables, event: Event)
    requires Outcome(event) && !LateFill(t, event)
    ensures var after := React(t, event);
            && after.fills == t.fills && after.resets == t.resets
            && Consumed(after.cycles, ResetOf(t)) == Consumed(t.cycles, ResetOf(t)) - Removed(t, event)
  {
    OutcomeWeighs(t, event);
  }

  lemma UpdatedElsewhere(cycles: seq<CycleRow>, k: nat, row: CycleRow, o: OrderId, reset: Option<Time>)
    requires k < |cycles| && row.order == cycles[k].order != o && Find(cycles, o) < |cycles|
    ensures var after, j := cycles[k := row], Find(cycles, o);
            && Find(after, o) == j && after[j] == cycles[j]
            && Before(after, j, reset) == Before(cycles, j, reset)
                 - (if k < j then Weight(cycles[k], reset) - Weight(row, reset) else 0)
  {
    var after, j := cycles[k := row], Find(cycles, o);
    assert after[j] == cycles[j] && Find(after, o) == j;
    BeforeUpdate(cycles, k, row, j, reset);
  }

  lemma DeletedElsewhere(cycles: seq<CycleRow>, k: nat, o: OrderId, reset: Option<Time>)
    requires k < |cycles| && cycles[k].order != o && Find(cycles, o) < |cycles|
    ensures var after, j := cycles[..k] + cycles[k + 1..], Find(cycles, o);
            && Find(after, o) == (if k < j then j - 1 else j) && after[Find(after, o)] == cycles[j]
            && Before(after, Find(after, o), reset) == Before(cycles, j, reset)
                 - (if k < j then Weight(cycles[k], reset) else 0)
  {
    var after, j := cycles[..k] + cycles[k + 1..], Find(cycles, o);
    var i := if k < j then j - 1 else j;
    assert after[i] == cycles[j] && Find(after, o) == i;
    BeforeDelete(cycles, k, i, reset);
  }

  /** Another order keeps its row; its stretch moves up by what was removed before it. */
  predicate MovesUp(cycles: seq<CycleRow>, after: seq<CycleRow>, o: OrderId, shift: int, reset: Option<Time>)
  {
    var j, i := Find(cycles, o), Find(after, o);
    && i < |after| && j < |cycles| && after[i] == cycles[j]
    && (j == |cycles| - 1 ==> i == |after| - 1)
    && Before(after, i, reset) == Before(cycles, j, reset) - shift
  }

  function Shift(t: Tables, event: Event, o: OrderId): int
    requires Outcome(event)
  {
    if Find(t.cycles, event.order) < Find(t.cycles, o) then Removed(t, event) else 0
  }

  lemma OutcomeElsewhere(t: Tables, event: Event, o: OrderId)
    requires Outcome(event) && !LateFill(t, event) && o != event.order && Present(t, o)
    ensures MovesUp(t.cycles, React(t, event).cycles, o, Shift(t, event, o), ResetOf(t))
  {
    if React(t, event) != t {
      match event
      case Cancelled(_) => CancelledElsewhere(t, event, o);
      case Failed(_, _) => FailedElsewhere(t, event, o);
      case _ => FilledElsewhere(t, event, o);
    }
  }

  lemma CancelledElsewhere(t: Tables, event: Event, o: OrderId)
    requires event.Cancelled? && o != event.order && Present(t, o) && React(t, event) != t
    ensures MovesUp(t.cycles, React(t, event).cycles, o, Shift(t, event, o), ResetOf(t))
  {
    DeletedElsewhere(t.cycles, Find(t.cycles, event.order), o, ResetOf(t));
  }

  lemma FailedElsewhere(t: Tables, event: Event, o: OrderId)
    requires event.Failed? && o != event.order && Present(t, o) && React(t, event) != t
    ensures MovesUp(t.cycles, React(t, event).cycles, o, Shift(t, event, o), ResetOf(t))
  {
    var k := Find(t.cycles, event.order);
    UpdatedElsewhere(t.cycles, k, t.cycles[k].(failedAt := Some(event.at)), o, ResetOf(t));
  }

  lemma FilledElsewhere(t: Tables, event: Event, o: OrderId)
    requires event.Filled? && !LateFill(t, event) && o != event.order && Present(t, o) && React(t, event) != t
    ensures MovesUp(t.cycles, React(t, event).cycles, o, Shift(t, event, o), ResetOf(t))
  {
    var k := Find(t.cycles, event.order);
    UpdatedElsewhere(t.cycles, k, t.cycles[k].(filledAt := Some(event.at)), o, ResetOf(t));
  }

  /** The consumed total around one cycle. */
  lemma PrefixOfConsumed(cycles: seq<CycleRow>, k: nat, reset: Option<Time>)
    requires k < |cycles| && forall i :: 0 <= i < |cycles| ==> cycles[i].covered >= 0
    ensures 0 <= Before(cycles, k, reset) && 0 <= Weight(cycles[k], reset)
    ensures Before(cycles, k + 1, reset) == Before(cycles, k, reset) + Weight(cycles[k], reset)
    ensures Before(cycles, k + 1, reset) <= Consumed(cycles, reset)
  {
    BeforeGrows(cycles, 0, k, reset);
    BeforeGrows(cycles, k + 1, |cycles|, reset);
  }

  /** A row behind one after which nothing weighs covers nothing. */
  lemma LaterIsEmpty(cycles: seq<CycleRow>, k: nat, j: nat, reset: Option<Time>)
    requires k < j < |cycles| && forall i :: 0 <= i < |cycles| ==> cycles[i].covered >= 0
    requires Before(cycles, k + 1, reset) == Consumed(cycles, reset)
    ensures Weight(cycles[j], reset) == 0 && Before(cycles, j, reset) == Before(cycles, k + 1, reset)
  {
    BeforeGrows(cycles, k + 1, j, reset);
    PrefixOfConsumed(cycles, j, reset);
  }

  /** A tile whose row and start are unchanged, or which covers nothing at all. */
  lemma TileMoves(kept: seq<UncoveredFill>, cycles: seq<CycleRow>, after: seq<CycleRow>, o: OrderId,
                  batch: seq<UncoveredFill>, reset: Option<Time>)
    requires Tiles(kept, cycles, o, batch, reset)
    requires Find(after, o) < |after| && after[Find(after, o)] == cycles[Find(cycles, o)]
    requires || StartOf(after, o, reset) == StartOf(cycles, o, reset)
             || (batch == [] && 0 <= StartOf(after, o, reset) <= StartOf(cycles, o, reset))
    ensures Tiles(kept, after, o, batch, reset)
  {
  }

  /** Another batch in flight keeps its tile through an outcome that is in order. */
  lemma OutcomeTile(t: Tables, event: Event, o: OrderId, batch: seq<UncoveredFill>)
    requires Conserves(t) && Outcome(event) && o != event.order && !LateFill(t, event) && !OutOfOrder(t, event)
    requires Tiles(Kept(t.fills, ResetOf(t)), t.cycles, o, batch, ResetOf(t))
    ensures Tiles(Kept(t.fills, ResetOf(t)), React(t, event).cycles, o, batch, ResetOf(t))
  {
    OutcomeElsewhere(t, event, o);
    if Find(t.cycles, event.order) < Find(t.cycles, o) && Removed(t, event) != 0 {
      YoungerIsEmpty(t, event, o);
    }
    TileMoves(Kept(t.fills, ResetOf(t)), t.cycles, React(t, event).cycles, o, batch, ResetOf(t));
  }

  /** A younger batch behind one given back in order covers nothing. */
  lemma YoungerIsEmpty(t: Tables, event: Event, o: OrderId)
    requires Conserves(t) && Outcome(event) && !OutOfOrder(t, event) && Removed(t, event) != 0
    requires Present(t, o) && Find(t.cycles, event.order) < Find(t.cycles, o)
    ensures Weight(t.cycles[Find(t.cycles, o)], ResetOf(t)) == 0
    ensures 0 < Removed(t, event) <= StartOf(t.cycles, o, ResetOf(t))
  {
    var j, k := Find(t.cycles, o), Find(t.cycles, event.order);
    PrefixOfConsumed(t.cycles, k, ResetOf(t));
    LaterIsEmpty(t.cycles, k, j, ResetOf(t));
  }

  lemma RemovedIsConsumed(t: Tables, event: Event)
    requires Conserves(t) && Outcome(event)
    ensures 0 <= Removed(t, event) <= Consumed(t.cycles, ResetOf(t))
  {
    if Present(t, event.order) {
      PartOfConsumed(t.cycles, Find(t.cycles, event.order), ResetOf(t));
    }
  }

  /** A stretch that ends where consumption ends goes back in front of the pool. */
  lemma BackInFront(kept: seq<UncoveredFill>, consumed: int, batch: seq<UncoveredFill>, waiting: seq<UncoveredFill>)
    requires |batch| <= consumed <= |kept| && waiting == kept[consumed..]
    requires batch == kept[consumed - |batch|..consumed]
    ensures batch + waiting == kept[consumed - |batch|..]
  {
  }

  /** The tile behind which nothing weighs is the stretch consumed last. */
  lemma LastTile(t: Tables, o: OrderId, batch: seq<UncoveredFill>)
    requires Conserves(t) && Tiles(Kept(t.fills, ResetOf(t)), t.cycles, o, batch, ResetOf(t)) && LaterWeight(t, o) == 0
    ensures var kept, consumed := Kept(t.fills, ResetOf(t)), Consumed(t.cycles, ResetOf(t));
            |batch| <= consumed && batch == kept[consumed - |batch|..consumed]
  {
    PrefixOfConsumed(t.cycles, Find(t.cycles, o), ResetOf(t));
  }

  lemma RemovedIsBatch(t: Tables, pool: Pool, event: Event)
    requires Linked(t, pool) && Outcome(event)
    ensures Removed(t, event) ==
            if event.order in pool.inFlight && !event.Filled? then |pool.inFlight[event.order]| else 0
  {
  }

  /** A batch given back in order goes in front of the pool. */
  lemma GivenBackInFront(t: Tables, o: OrderId, batch: seq<UncoveredFill>, waiting: seq<UncoveredFill>)
    requires Conserves(t) && Tiles(Kept(t.fills, ResetOf(t)), t.cycles, o, batch, ResetOf(t))
    requires waiting == Kept(t.fills, ResetOf(t))[Consumed(t.cycles, ResetOf(t))..]
    requires batch == [] || LaterWeight(t, o) == 0
    ensures |batch| <= Consumed(t.cycles, ResetOf(t))
    ensures batch + waiting == Kept(t.fills, ResetOf(t))[Consumed(t.cycles, ResetOf(t)) - |batch|..]
  {
    if batch == [] {
      assert batch + waiting == waiting;
    } else {
      LastTile(t, o, batch);
      BackInFront(Kept(t.fills, ResetOf(t)), Consumed(t.cycles, ResetOf(t)), batch, waiting);
    }
  }

  lemma ReturnedWaiting(pool: Pool, event: Event)
    requires Outcome(event)
    ensures Follow(pool, event).waiting ==
            if event.order in pool.inFlight && !event.Filled? then pool.inFlight[event.order] + pool.waiting
            else pool.waiting
  {
  }

  /** What an in-order outcome gives back is the stretch consumed last. */
  lemma OutcomeWaiting(t: Tables, pool: Pool, event: Event)
    requires Linked(t, pool) && Outcome(event) && !OutOfOrder(t, event)
    ensures 0 <= Removed(t, event) <= Consumed(t.cycles, ResetOf(t)) <= |Kept(t.fills, ResetOf(t))|
    ensures Follow(pool, event).waiting ==
            Kept(t.fills, ResetOf(t))[Consumed(t.cycles, ResetOf(t)) - Removed(t, event)..]
  {
    RemovedIsConsumed(t, event);
    ReturnedWaiting(pool, event);
    if event.order in pool.inFlight && !event.Filled? {
      FlightWaiting(t, pool, event);
    } else {
      RemovedIsBatch(t, pool, event);
    }
  }

  lemma FlightWaiting(t: Tables, pool: Pool, event: Event)
    requires Linked(t, pool) && Outcome(event) && !OutOfOrder(t, event)
    requires event.order in pool.inFlight && !event.Filled?
    ensures Removed(t, event) == |pool.inFlight[event.order]| <= Consumed(t.cycles, ResetOf(t))
    ensures pool.inFlight[event.order] + pool.waiting ==
            Kept(t.fills, ResetOf(t))[Consumed(t.cycles, ResetOf(t)) - Removed(t, event)..]
  {
    RemovedIsBatch(t, pool, event);
    OutOfOrderMeans(t, pool, event);
    GivenBackInFront(t, event.order, pool.inFlight[event.order], pool.waiting);
  }

  lemma OutcomeRowsKnown(t: Tables, pool: Pool, event: Event)
    requires Outcome(event) && UniqueOrders(t.cycles) && OpenInFlight(t.cycles, pool.inFlight, ResetOf(t))
    ensures OpenInFlight(React(t, event).cycles, pool.inFlight - {event.order}, ResetOf(t))
  {
    var after := React(t, event);
    forall i | 0 <= i < |after.cycles| && Open(after.cycles[i], ResetOf(t))
      ensures after.cycles[i].order in pool.inFlight - {event.order}
    {
      OutcomeEnds(t, event, i);
    }
  }

  lemma FollowLands(pool: Pool, event: Event)
    requires Outcome(event)
    ensures Follow(pool, event).inFlight == pool.inFlight - {event.order}
  {
    assert event.order !in pool.inFlight ==> pool.inFlight - {event.order} == pool.inFlight;
  }

  /** The link, put together from its parts when fills and resets have not changed. */
  lemma Assemble(t: Tables, after: Tables, pool: Pool)
    requires after.fills == t.fills && after.resets == t.resets && Conserves(after)
    requires pool.waiting == Kept(t.fills, ResetOf(t))[Consumed(after.cycles, ResetOf(t))..]
    requires OpenInFlight(after.cycles, pool.inFlight, ResetOf(t))
    requires AllTiled(Kept(t.fills, ResetOf(t)), after.cycles, pool.inFlight, ResetOf(t))
    ensures Linked(after, pool)
  {
  }

  lemma OutcomeTiles(t: Tables, pool: Pool, event: Event)
    requires Conserves(t) && AllTiled(Kept(t.fills, ResetOf(t)), t.cycles, pool.inFlight, ResetOf(t))
    requires Outcome(event) && !LateFill(t, event) && !OutOfOrder(t, event)
    ensures AllTiled(Kept(t.fills, ResetOf(t)), React(t, event).cycles, pool.inFlight - {event.order}, ResetOf(t))
  {
    forall o | o in pool.inFlight - {event.order}
      ensures Tiles(Kept(t.fills, ResetOf(t)), React(t, event).cycles, o, pool.inFlight[o], ResetOf(t))
    {
      OutcomeTile(t, event, o, pool.inFlight[o]);
    }
  }

  lemma OutcomePool(t: Tables, pool: Pool, event: Event)
    requires Linked(t, pool) && Outcome(event) && !LateFill(t, event) && !OutOfOrder(t, event)
    ensures var after := React(t, event);
            && after.fills == t.fills && after.resets == t.resets && Conserves(after)
            && Follow(pool, event).waiting == Kept(t.fills, ResetOf(t))[Consumed(after.cycles, ResetOf(t))..]
  {
    OutcomeRemoves(t, event);
    OutcomeConserves(t, event);
    OutcomeWaiting(t, pool, event);
  }

  lemma OutcomeLinks(t: Tables, pool: Pool, event: Event)
    requires Linked(t, pool) && UniqueOrders(t.cycles)
    requires Outcome(event) && !LateFill(t, event) && !OutOfOrder(t, event)
    ensures Linked(React(t, event), Follow(pool, event))
  {
    OutcomePool(t, pool, event);
    OutcomeTiles(t, pool, event);
    OutcomeRowsKnown(t, pool, event);
    FollowLands(pool, event);
    Assemble(t, React(t, event), Follow(pool, event));
  }

  /** One event of an orderly stream that is in order keeps recompute and rules linked. */
  lemma StepLinks(before: seq<Event>, event: Event)
    requires Orderly(before + [event]) && Linked(Run(before), PoolAfter(before)) && !OutOfOrder(Run(before), event)
    ensures Linked(React(Run(before), event), Follow(PoolAfter(before), event))
  {
    assert (before + [event])[..|before|] == before;
    var t, pool := Run(before), PoolAfter(before);
    if Clock(event).Some? { RowsAreOld(before, Clock(event).value); }
    match event
    case Fill(trade, _, _) => NewTradeHasNoRow(before, trade); FillLinks(t, pool, event);
    case Placed(o, _) => NewOrderHasNoRow(before, o); PlacedLinks(t, pool, event);
    case Adjusted(at) => AdjustedLinks(t, pool, at);
    case _ => OrdersAreUnique(before); OutcomeLinks(t, pool, event);
  }

  lemma {:induction false} InOrderStreamsLink(events: seq<Event>)
    requires Orderly(events) && InOrder(events)
    ensures Linked(Run(events), PoolAfter(events))
  {
    if events != [] {
      var before, event := events[..|events| - 1], events[|events| - 1];
      InOrderStreamsLink(before);
      assert events == before + [event];
      StepLinks(before, event);
    }
  }

  // The converse: an event out of order.

  predicate Increasing(fills: seq<UncoveredFill>)
  {
    forall i, j :: 0 <= i < j < |fills| ==> fills[i].seen < fills[j].seen
  }

  predicate SeenInOrder(rows: seq<FillRow>)
  {
    && (forall i :: 0 <= i < |rows| ==> rows[i].seen.Some?)
    && (forall i, j :: 0 <= i < j < |rows| ==> rows[i].seen.value < rows[j].seen.value)
  }

  lemma {:induction false} KeptBefore(rows: seq<FillRow>, n: nat, reset: Option<Time>, at: Time)
    requires n <= |rows| && forall i :: 0 <= i < n ==> rows[i].seen.Some? && rows[i].seen.value < at
    ensures forall i :: 0 <= i < |KeptOf(rows, n, reset)| ==> KeptOf(rows, n, reset)[i].seen < at
  {
    if n > 0 {
      KeptBefore(rows, n - 1, reset, at);
    }
  }

  lemma {:induction false} KeptIncreases(rows: seq<FillRow>, n: nat, reset: Option<Time>)
    requires n <= |rows| && SeenInOrder(rows)
    ensures Increasing(KeptOf(rows, n, reset))
  {
    if n > 0 {
      KeptIncreases(rows, n - 1, reset);
      KeptBefore(rows, n - 1, reset, rows[n - 1].seen.value);
    }
  }

  lemma {:induction false} RowsAreInOrder(events: seq<Event>)
    requires Orderly(events)
    ensures SeenInOrder(Run(events).fills)
  {
    if events != [] {
      var before, event := events[..|events| - 1], events[|events| - 1];
      RowsAreInOrder(before);
      if event.Fill? {
        RowsAreOld(before, event.seen);
      }
    }
  }

  /** In an orderly stream fills are told apart by the time they were seen. */
  lemma FillsIncrease(events: seq<Event>)
    requires Orderly(events)
    ensures Increasing(Kept(Run(events).fills, ResetOf(Run(events))))
  {
    RowsAreInOrder(events);
    KeptIncreases(Run(events).fills, |Run(events).fills|, ResetOf(Run(events)));
  }

  /** Two different stretches of increasing fills do not begin alike. */
  lemma DifferentHeads(kept: seq<UncoveredFill>, start: int, consumed: int, batch: seq<UncoveredFill>)
    requires Increasing(kept) && batch != [] && 0 <= start && start + |batch| < consumed <= |kept|
    requires batch == kept[start..start + |batch|]
    ensures batch + kept[consumed..] != kept[consumed - |batch|..]
  {
    assert (batch + kept[consumed..])[0] == kept[start];
    assert kept[consumed - |batch|..][0] == kept[consumed - |batch|];
  }

  lemma GivenBackPool(t: Tables, event: Event)
    requires Conserves(t) && Outcome(event) && !LateFill(t, event)
    ensures 0 <= Removed(t, event) <= Consumed(t.cycles, ResetOf(t)) <= |Kept(t.fills, ResetOf(t))|
    ensures Uncovered(React(t, event)) ==
            Ok(Kept(t.fills, ResetOf(t))[Consumed(t.cycles, ResetOf(t)) - Removed(t, event)..])
  {
    RemovedIsConsumed(t, event);
    OutcomeRemoves(t, event);
    OutcomeConserves(t, event);
    ConservesMeans(React(t, event));
  }

  lemma GivenBackElsewhere(t: Tables, o: OrderId, batch: seq<UncoveredFill>)
    requires Conserves(t) && Tiles(Kept(t.fills, ResetOf(t)), t.cycles, o, batch, ResetOf(t))
    requires Increasing(Kept(t.fills, ResetOf(t))) && batch != [] && LaterWeight(t, o) > 0
    ensures var kept, consumed := Kept(t.fills, ResetOf(t)), Consumed(t.cycles, ResetOf(t));
            |batch| <= consumed && batch + kept[consumed..] != kept[consumed - |batch|..]
  {
    PrefixOfConsumed(t.cycles, Find(t.cycles, o), ResetOf(t));
    DifferentHeads(Kept(t.fills, ResetOf(t)), StartOf(t.cycles, o, ResetOf(t)), Consumed(t.cycles, ResetOf(t)), batch);
  }

  lemma OutOfOrderDisagrees(t: Tables, pool: Pool, event: Event)
    requires Linked(t, pool) && OutOfOrder(t, event) && Increasing(Kept(t.fills, ResetOf(t)))
    ensures Uncovered(React(t, event)) != Ok(Follow(pool, event).waiting)
  {
    RemovedIsBatch(t, pool, event);
    OutOfOrderPools(t, pool, event);
  }

  lemma OutOfOrderPools(t: Tables, pool: Pool, event: Event)
    requires Conserves(t) && OutOfOrder(t, event) && Increasing(Kept(t.fills, ResetOf(t)))
    requires event.order in pool.inFlight && Removed(t, event) == |pool.inFlight[event.order]|
    requires Tiles(Kept(t.fills, ResetOf(t)), t.cycles, event.order, pool.inFlight[event.order], ResetOf(t))
    requires pool.waiting == Kept(t.fills, ResetOf(t))[Consumed(t.cycles, ResetOf(t))..]
    ensures Uncovered(React(t, event)) != Ok(Follow(pool, event).waiting)
  {
    GivenBackPool(t, event);
    ReturnedWaiting(pool, event);
    GivenBackElsewhere(t, event.order, pool.inFlight[event.order]);
  }

  lemma {:induction false} PrefixIsOrderly(events: seq<Event>, n: nat)
    requires Orderly(events) && n <= |events|
    ensures Orderly(events[..n]) && (InOrder(events) ==> InOrder(events[..n]))
  {
    if n == |events| {
      assert events[..n] == events;
    } else {
      var before := events[..|events| - 1];
      assert before[..n] == events[..n];
      PrefixIsOrderly(before, n);
    }
  }

  /** For every orderly stream, with any number of batches in flight: the recompute is the
      pool of the stated rules after every event exactly when no batch is given back while
      a younger cycle still consumes fills. */
  lemma {:induction false} RecomputeRefinesRulesIff(events: seq<Event>)
    requires Orderly(events)
    ensures (forall n :: 0 <= n <= |events| ==> Agrees(events[..n])) <==> InOrder(events)
  {
    if InOrder(events) {
      forall n | 0 <= n <= |events| ensures Agrees(events[..n]) {
        PrefixIsOrderly(events, n);
        InOrderStreamsLink(events[..n]);
        LinkedAgrees(Run(events[..n]), PoolAfter(events[..n]));
      }
    } else {
      var n := DisagreesSomewhere(events);
    }
  }

  lemma {:induction false} DisagreesSomewhere(events: seq<Event>) returns (n: nat)
    requires Orderly(events) && !InOrder(events)
    ensures n <= |events| && !Agrees(events[..n])
  {
    var before, event := events[..|events| - 1], events[|events| - 1];
    if InOrder(before) {
      n := |events|;
      assert events[..n] == events;
      InOrderStreamsLink(before);
      FillsIncrease(before);
      OutOfOrderDisagrees(Run(before), PoolAfter(before), event);
    } else {
      n := DisagreesSomewhere(before);
      assert before[..n] == events[..n];
    }
  }

  lemma OutOfOrderMeans(t: Tables, pool: Pool, event: Event)
    requires Linked(t, pool) && (event.Failed? || event.Cancelled?) && event.order in pool.inFlight
    ensures Present(t, event.order)
    ensures OutOfOrder(t, event) <==> pool.inFlight[event.order] != [] && LaterWeight(t, event.order) != 0
  {
    PrefixOfConsumed(t.cycles, Find(t.cycles, event.order), ResetOf(t));
  }

  /** Whether a failed or cancelled batch comes back as the rules say can be told from the
      tables just before: it is empty, or no cycle recorded after it still consumes. */
  lemma GivesBackOwnBatchIff(events: seq<Event>, event: Event)
    requires Orderly(events + [event]) && InOrder(events)
    requires (event.Failed? || event.Cancelled?) && event.order in PoolAfter(events).inFlight
    ensures Present(Run(events), event.order)
    ensures Agrees(events + [event]) <==>
              PoolAfter(events).inFlight[event.order] == [] || LaterWeight(Run(events), event.order) == 0
  {
    assert (events + [event])[..|events|] == events;
    var t, pool := Run(events), PoolAfter(events);
    InOrderStreamsLink(events);
    OutOfOrderMeans(t, pool, event);
    if OutOfOrder(t, event) {
      FillsIncrease(events);
      OutOfOrderDisagrees(t, pool, event);
    } else {
      StepLinks(events, event);
      LinkedAgrees(React(t, event), Follow(pool, event));
    }
  }

  // ----- One batch in flight -----

  /** The batch in flight, if any, belongs to the youngest cycle. */
  predicate YoungestInFlight(t: Tables, pool: Pool)
  {
    forall o :: o in pool.inFlight ==>
      pool.inFlight.Keys == {o} && Present(t, o) && Find(t.cycles, o) == |t.cycles| - 1
  }

  lemma PlacedIsYoungest(t: Tables, pool: Pool, event: Event)
    requires event.Placed? && pool.inFlight == map[] && !Present(t, event.order) && Uncovered(t).Ok?
    ensures YoungestInFlight(React(t, event), Follow(pool, event))
  {
    var after := React(t, event).cycles;
    assert after[|t.cycles|].order == event.order && Find(after, event.order) == |t.cycles|;
  }

  lemma OutcomeKeepsYoungest(t: Tables, pool: Pool, event: Event)
    requires Outcome(event) && !LateFill(t, event) && YoungestInFlight(t, pool)
    ensures YoungestInFlight(React(t, event), Follow(pool, event))
  {
    FollowLands(pool, event);
    forall o | o in Follow(pool, event).inFlight
      ensures Present(React(t, event), o) && Find(React(t, event).cycles, o) == |React(t, event).cycles| - 1
    {
      OutcomeElsewhere(t, event, o);
    }
  }

  lemma StepKeepsYoungest(before: seq<Event>, event: Event)
    requires Orderly(before + [event]) && YoungestInFlight(Run(before), PoolAfter(before))
    requires event.Placed? ==> PoolAfter(before).inFlight == map[]
    ensures YoungestInFlight(React(Run(before), event), Follow(PoolAfter(before), event))
  {
    assert (before + [event])[..|before|] == before;
    if event.Placed? {
      NewOrderHasNoRow(before, event.order);
      EveryRunConserves(before);
      PlacedIsYoungest(Run(before), PoolAfter(before), event);
    } else if Outcome(event) {
      OutcomeKeepsYoungest(Run(before), PoolAfter(before), event);
    }
  }

  lemma YoungestIsInOrder(t: Tables, pool: Pool, event: Event)
    requires Linked(t, pool) && YoungestInFlight(t, pool)
    ensures !OutOfOrder(t, event)
  {
  }

  lemma {:induction false} OneOpenIsYoungest(events: seq<Event>)
    requires Orderly(events) && OneOpenCycle(events)
    ensures YoungestInFlight(Run(events), PoolAfter(events))
  {
    if events != [] {
      var before, event := events[..|events| - 1], events[|events| - 1];
      OneOpenIsYoungest(before);
      assert events == before + [event];
      StepKeepsYoungest(before, event);
    }
  }

  lemma {:induction false} OneOpenCycleIsInOrder(events: seq<Event>)
    requires Orderly(events) && OneOpenCycle(events)
    ensures InOrder(events)
  {
    if events != [] {
      var before, event := events[..|events| - 1], events[|events| - 1];
      OneOpenCycleIsInOrder(before);
      InOrderStreamsLink(before);
      OneOpenIsYoungest(before);
      YoungestIsInOrder(Run(before), PoolAfter(before), event);
    }
  }

  /** With at most one batch in flight the recompute is always the pool of the rules, and
      the cycle row of the batch in flight records that batch's size and window. */
  lemma RecomputeRefinesRules(events: seq<Event>)
    requires Orderly(events) && OneOpenCycle(events)
    ensures Agrees(events) && Linked(Run(events), PoolAfter(events))
  {
    OneOpenCycleIsInOrder(events);
    InOrderStreamsLink(events);
    LinkedAgrees(Run(events), PoolAfter(events));
  }

  // ----- A fill reported after a failure -----

  /** When a failed cycle is stamped filled after all, its batch is consumed a second
      time: the recompute still agrees with the rules exactly when that batch was empty,
      was forgotten by a reset, or the pool has nothing to lose. */
  lemma LateFillAgreesIff(events: seq<Event>, event: Event)
    requires Orderly(events) && InOrder(events) && LateFill(Run(events), event)
    ensures var t := Run(events);
            var row := t.cycles[Find(t.cycles, event.order)];
            Agrees(events + [event]) <==>
              row.covered == 0 || !AfterResetRow(row, ResetOf(t)) || PoolAfter(events).waiting == []
  {
    InOrderStreamsLink(events);
    assert (events + [event])[..|events|] == events;
    LinkedAgrees(Run(events), PoolAfter(events));
    LateFillDrops(Run(events), event);
  }

  lemma LateFillDrops(t: Tables, event: Event)
    requires Conserves(t) && LateFill(t, event)
    ensures var row := t.cycles[Find(t.cycles, event.order)];
            && Uncovered(t).Ok?
            && Uncovered(React(t, event)) ==
               Ok(DropUpTo(Uncovered(t).value, if AfterResetRow(row, ResetOf(t)) then row.covered else 0))
  {
    ConservesMeans(t);
    OutcomeWeighs(t, event);
    var after := React(t, event);
    assert WellCounted(after.cycles, ResetOf(t));
    BeforeGrows(after.cycles, 0, |after.cycles|, ResetOf(t));
  }

  // ----- The tables, row by row -----

  /** After the latest reset means after all of them. */
  lemma AfterEveryReset(resets: seq<Time>, at: Time)
    ensures AfterReset(LatestReset(resets), at) <==> forall i :: 0 <= i < |resets| ==> resets[i] < at
  {
    ResetIsLatest(resets);
  }

  /** One more fill row counts exactly when both its times can be read and it was seen
      after every reset; it then stands last. */
  lemma FillRowCounts(rows: seq<FillRow>, row: FillRow, resets: seq<Time>)
    ensures Kept(rows + [row], LatestReset(resets)) ==
            Kept(rows, LatestReset(resets)) +
            match (row.block, row.seen)
            case (Some(block), Some(seen)) =>
              if forall i :: 0 <= i < |resets| ==> resets[i] < seen then [UncoveredFill(block, seen)] else []
            case _ => []
  {
    if row.seen.Some? { AfterEveryReset(resets, row.seen.value); }
    KeptFrame(rows, rows + [row], |rows|, LatestReset(resets));
    assert (rows + [row])[|rows|] == row;
  }

  /** One more cycle row consumes its count exactly when it was placed, readably, after
      every reset, and it is filled or has not failed. */
  lemma CycleRowConsumes(rows: seq<CycleRow>, row: CycleRow, resets: seq<Time>)
    ensures Consumed(rows + [row], LatestReset(resets)) ==
            Consumed(rows, LatestReset(resets)) +
            match row.placed
            case Some(placed) =>
              if (forall i :: 0 <= i < |resets| ==> resets[i] < placed)
                 && (row.filledAt != None || row.failedAt == None)
              then row.covered else 0
            case None => 0
  {
    if row.placed.Some? { AfterEveryReset(resets, row.placed.value); }
    BeforeFrame(rows, rows + [row], |rows|, LatestReset(resets));
  }

  /** What an outcome writes to the row of its order: the first fill time, the first
      failure time if there is no fill, or the removal of a row without either. */
  lemma OutcomeWrites(t: Tables, k: nat, o: OrderId, at: Time)
    requires UniqueOrders(t.cycles) && k < |t.cycles| && t.cycles[k].order == o
    ensures var row := t.cycles[k];
            && React(t, Filled(o, at)) ==
               (if row.filledAt == None
                then t.(cycles := t.cycles[k :=
                       CycleRow(o, row.placed, row.covered, row.window, Some(at), row.failedAt)])
                else t)
            && React(t, Failed(o, at)) ==
               (if row.filledAt == None && row.failedAt == None
                then t.(cycles := t.cycles[k := CycleRow(o, row.placed, row.covered, row.window, None, Some(at))])
                else t)
            && React(t, Cancelled(o)) ==
               (if row.filledAt == None && row.failedAt == None
                then t.(cycles := t.cycles[..k] + t.cycles[k + 1..])
                else t)
  {
    assert Find(t.cycles, o) == k;
  }

  /** What everything else inserts, once: a fill under its trade id, a reset under its
      time; an outcome of an order without a row is dropped. */
  lemma InsertWrites(t: Tables, trade: TradeId, block: Time, seen: Time, at: Time, o: OrderId)
    ensures React(t, Fill(trade, block, seen)) ==
            if trade.logIndex > 0x7FFF_FFFF_FFFF_FFFF || (exists i :: 0 <= i < |t.fills| && t.fills[i].trade == trade)
            then t else t.(fills := t.fills + [FillRow(trade, Some(block), Some(seen))])
    ensures React(t, Adjusted(at)) == if at in t.resets then t else t.(resets := t.resets + [at])
    ensures (forall i :: 0 <= i < |t.cycles| ==> t.cycles[i].order != o) ==>
              React(t, Filled(o, at)) == t && React(t, Failed(o, at)) == t && React(t, Cancelled(o)) == t
  {
  }

  /** What a placement inserts: the pool just before it, as a count and its window. */
  lemma PlacementWrites(t: Tables, o: OrderId, at: Time)
    ensures React(t, Placed(o, at)) ==
            match Uncovered(t)
            case Err(_) => t
            case Ok(pool) =>
              if exists i :: 0 <= i < |t.cycles| && t.cycles[i].order == o then t
              else t.(cycles := t.cycles + [CycleRow(o, Some(at), |pool|, CoveredFills(pool), None, None)])
  {
  }

  // ----- Redelivery -----

  /** The tables already hold everything the event has to say. */
  predicate Recorded(t: Tables, event: Event)
  {
    match event
    case Fill(trade, _, _) => trade.logIndex > I64_MAX || HasFill(t.fills, trade)
    case Placed(o, _) => Present(t, o) || Uncovered(t).Err?
    case Filled(o, _) => Present(t, o) ==> t.cycles[Find(t.cycles, o)].filledAt.Some?
    case Failed(o, _) => Present(t, o) ==> Ended(t.cycles[Find(t.cycles, o)])
    case Cancelled(o) => Present(t, o) ==> Ended(t.cycles[Find(t.cycles, o)])
    case Adjusted(at) => at in t.resets
  }

  lemma RecordedIsIdle(t: Tables, event: Event)
    requires Recorded(t, event)
    ensures React(t, event) == t
  {
  }

  lemma InsertIsRecorded(t: Tables, event: Event)
    requires !Outcome(event)
    ensures Recorded(React(t, event), event)
  {
    var after := React(t, event);
    if after != t {
      match event
      case Fill(trade, _, _) => assert after.fills[|t.fills|].trade == trade;
      case Adjusted(at) => assert after.resets[|t.resets|] == at;
      case Placed(o, _) => assert after.cycles[|t.cycles|].order == o;
    }
  }

  lemma OutcomeIsRecorded(t: Tables, event: Event)
    requires Outcome(event) && UniqueOrders(t.cycles)
    ensures Recorded(React(t, event), event)
  {
    if Present(React(t, event), event.order) && !event.Filled? {
      OutcomeEnds(t, event, Find(React(t, event).cycles, event.order));
    }
  }

  /** Retrying a reaction at once changes nothing, whatever the tables held before. */
  lemma RetryIsIdempotent(t: Tables, event: Event)
    requires UniqueOrders(t.cycles)
    ensures Recorded(React(t, event), event)
    ensures React(React(t, event), event) == React(t, event)
  {
    if Outcome(event) {
      OutcomeIsRecorded(t, event);
    } else {
      InsertIsRecorded(t, event);
    }
    RecordedIsIdle(React(t, event), event);
  }

  predicate SameOrder(event: Event, o: OrderId)
  {
    (event.Placed? || event.Filled? || event.Failed? || event.Cancelled?) && event.order == o
  }

  /** Orders are placed at most once, and before anything else is said of them. */
  predicate PlacedFirst(events: seq<Event>)
  {
    forall i, j :: 0 <= i < j < |events| && events[j].Placed? ==> !SameOrder(events[i], events[j].order)
  }

  lemma OutcomeStays(t: Tables, event: Event, next: Event)
    requires UniqueOrders(t.cycles) && Recorded(t, event) && Outcome(event) && Outcome(next)
    ensures Recorded(React(t, next), event)
  {
    var after := React(t, next);
    if event.order == next.order {
      RetryIsIdempotent(t, next);
    } else if Present(after, event.order) {
      OutcomeEnds(t, next, Find(after.cycles, event.order));
      ReactKeepsUnique(t, next);
    }
  }

  /** What an event had to say stays recorded, except that a cancel drops a placement. */
  lemma RecordedStays(t: Tables, event: Event, next: Event)
    requires UniqueOrders(t.cycles) && Recorded(t, event) && !event.Placed?
    requires next.Placed? ==> !SameOrder(event, next.order)
    ensures Recorded(React(t, next), event)
  {
    var after := React(t, next);
    if event.Fill? && HasFill(t.fills, event.trade) {
      var i :| 0 <= i < |t.fills| && t.fills[i].trade == event.trade;
      assert after.fills[i].trade == event.trade;
    } else if Outcome(event) && Outcome(next) {
      OutcomeStays(t, event, next);
    }
  }

  lemma {:induction false} DeliveredIsRecorded(events: seq<Event>, i: nat)
    requires PlacedFirst(events) && i < |events| && !events[i].Placed?
    ensures Recorded(Run(events), events[i])
  {
    var before, event := events[..|events| - 1], events[|events| - 1];
    OrdersAreUnique(before);
    if i == |events| - 1 {
      RetryIsIdempotent(Run(before), event);
    } else {
      assert PlacedFirst(before);
      DeliveredIsRecorded(before, i);
      RecordedStays(Run(before), events[i], event);
    }
  }

  /** Redelivering any earlier event, however late, changes the tables exactly when it is
      a placement whose row a cancellation has dropped since. */
  lemma RedeliveryChangesIff(events: seq<Event>, i: nat)
    requires PlacedFirst(events) && i < |events|
    ensures var t := Run(events);
            React(t, events[i]) != t <==> events[i].Placed? && !Present(t, events[i].order) && Uncovered(t).Ok?
  {
    if !events[i].Placed? {
      DeliveredIsRecorded(events, i);
    }
  }
}
