/**
 The promises of hedge claims over whole runs, and the exact condition under which each
 of the four rules the runs obey can be dropped.
 */
module HedgeTheorems {
  import opened Common
  import opened HedgeClaims
  import P = Positions
  import O = OffchainOrders

  // ----- Over every crash-and-recover run -----

  /** A claim is released only when its order is missing for good or has ended with a
      recordable outcome: never while it is pending, live or cancelling, and never for a
      fill without a price. */
  lemma ClaimReleasedOnlyWhenSafe(actions: seq<Action>, action: Action, o: OrderId)
    requires ClaimOf(Run(SERIALIZED, actions)) == Some(o)
    requires ClaimOf(Apply(SERIALIZED, Run(SERIALIZED, actions), action)) != Some(o)
    ensures var h := Run(SERIALIZED, actions);
            if o in h.orders then Recordable(h.orders[o]) else o !in h.placing
  {
    var h := Run(SERIALIZED, actions);
    EveryRunKeepsInv(actions);
    ApplyKeepsInv(h, action);
    ClaimMovesAlone(h, action);
  }

  /** An action that moves the claim leaves the orders alone. */
  lemma ClaimMovesAlone(h: Hedge, action: Action)
    ensures var after := Apply(SERIALIZED, h, action);
            && h.claimed.Keys <= after.claimed.Keys
            && (ClaimOf(after) != ClaimOf(h) ==> after.orders == h.orders && h.placing <= after.placing)
  {
  }

  /** A symbol never has two orders that have not ended, and the one it may have is the
      one its position claims. */
  lemma AtMostOneOpenOrder(actions: seq<Action>, o: OrderId, other: OrderId)
    requires var h := Run(SERIALIZED, actions);
             && o in h.orders && !h.orders[o].Terminal()
             && other in h.orders && !h.orders[other].Terminal()
    ensures o == other && ClaimOf(Run(SERIALIZED, actions)) == Some(o)
  {
    EveryRunKeepsInv(actions);
  }

  /** Net is the logged onchain fills, plus manual adjustments, plus for every claim that
      was released the recorded fill of its order, once; and those claims are all the
      claims there ever were, except the one still held. */
  lemma NetIsConserved(actions: seq<Action>)
    requires Run(SERIALIZED, actions).position.live.Some?
    ensures var h := Run(SERIALIZED, actions);
            && h.position.live.value.net == P.OnchainTotal(h.position.log) + P.AdjustmentTotal(h.position.log)
                                            + OwedTotal(h.orders, h.released)
            && (forall i, j :: 0 <= i < j < |h.released| ==> h.released[i] != h.released[j])
            && (forall o :: o in h.released <==> o in h.claimed && ClaimOf(h) != Some(o))
            && (forall o :: o in h.released && o in h.orders ==> Recordable(h.orders[o]))
  {
    EveryRunKeepsInv(actions);
    P.ReachedIsSound(Run(SERIALIZED, actions).position);
  }

  // ----- When a rule is not enforced: the exact condition -----

  const UNLOCKED := Discipline(true, false, true, true)
  const ANY_DISPATCH := Discipline(true, true, false, true)
  const REUSED_IDS := Discipline(false, true, true, true)
  const STALE_REJECTION := Discipline(true, true, true, false)

  ghost predicate Reaches(d: Discipline, start: Hedge, h: Hedge)
  {
    exists actions :: RunFrom(d, start, actions) == h
  }

  ghost predicate Reachable(d: Discipline, h: Hedge) { Reaches(d, INITIAL, h) }

  lemma ReachesItself(d: Discipline, start: Hedge)
    ensures Reaches(d, start, start)
  {
    assert RunFrom(d, start, []) == start;
  }

  lemma ReachesNext(d: Discipline, start: Hedge, h: Hedge, action: Action)
    requires Reaches(d, start, h)
    ensures Reaches(d, start, Apply(d, h, action))
  {
    var actions :| RunFrom(d, start, actions) == h;
    var longer := actions + [action];
    assert longer[..|actions|] == actions;
    assert RunFrom(d, start, longer) == Apply(d, h, action);
  }

  predicate BothOpen(h: Hedge, o: OrderId, other: OrderId)
  {
    o != other && o in h.orders && other in h.orders && !h.orders[o].Terminal() && !h.orders[other].Terminal()
  }

  /** Some continuation, itself obeying every rule, leaves two orders open at once. */
  ghost predicate CanOpenTwo(start: Hedge)
  {
    exists h, o, other :: Reaches(SERIALIZED, start, h) && BothOpen(h, o, other)
  }

  /** Releasing a claim whose order is missing can lead to two open orders exactly when a
      placement of that order is still in flight. */
  lemma MissingReleaseOpensTwoIff(h: Hedge, o: OrderId)
    requires Inv(h) && ClaimOf(h) == Some(o) && o !in h.orders
    ensures CanOpenTwo(Apply(UNLOCKED, h, ReleaseMissing(o))) <==> o in h.placing
  {
    var released := Apply(UNLOCKED, h, ReleaseMissing(o));
    if o in h.placing {
      InFlightReleaseOpensTwo(h, o);
    } else {
      CloseKeepsInv(h, o, P.FailOffChainOrder(o));
      InvNeverOpensTwo(released);
    }
  }

  lemma InvNeverOpensTwo(start: Hedge)
    requires Inv(start)
    ensures !CanOpenTwo(start)
  {
    forall h, o, other | Reaches(SERIALIZED, start, h) ensures !BothOpen(h, o, other) {
      var actions :| RunFrom(SERIALIZED, start, actions) == h;
      RunFromKeepsInv(start, actions);
    }
  }

  lemma BoundOf(ids: set<OrderId>) returns (bound: OrderId)
    ensures forall id :: id in ids ==> id < bound
  {
    if ids == {} {
      bound := 0;
    } else {
      var id :| id in ids;
      var rest := BoundOf(ids - {id});
      bound := if id < rest then rest else id + 1;
      assert forall x :: x in ids ==> x == id || x in ids - {id};
    }
  }

  const ANY_NET := P.UpdateThreshold(P.SharesThreshold(0.0))
  const ANY_TERMS := O.Terms("", Sell, O.DryRun)

  /** A position free of claims can always be brought to accept one. */
  lemma CanClaim(stream: P.Stream, next: OrderId)
    requires P.Reached(stream) && stream.live.Some? && P.ClaimOf(stream).None?
    ensures P.Reached(P.After(stream, ANY_NET)) && P.ClaimOf(P.After(stream, ANY_NET)).None?
    ensures P.Send(P.After(stream, ANY_NET), P.PlaceOffChainOrder(next, 1.0, Sell)).Ok?
  {
    P.CommitEvent(stream, P.ThresholdUpdated(P.SharesThreshold(0.0)));
    P.ReachedAfter(stream, ANY_NET);
    P.ClaimEffect(P.After(stream, ANY_NET), P.PlaceOffChainOrder(next, 1.0, Sell));
  }

  /** The state right after the unlocked release. */
  lemma UnlockedRelease(h: Hedge, o: OrderId)
    requires Inv(h) && ClaimOf(h) == Some(o) && o !in h.orders
    ensures var stream := P.After(h.position, P.FailOffChainOrder(o));
            && Apply(UNLOCKED, h, ReleaseMissing(o)) == h.(position := stream, released := h.released + [o])
            && P.Reached(stream) && stream.live.Some? && P.ClaimOf(stream).None?
  {
    P.CommitEvent(h.position, P.OffChainOrderFailed(o));
    P.ReachedAfter(h.position, P.FailOffChainOrder(o));
  }

  /** Both placements record their orders. */
  lemma RecordBoth(start: Hedge, claimed: Hedge, o: OrderId, next: OrderId)
    requires Reaches(SERIALIZED, start, claimed) && o != next
    requires o in claimed.placing && next in claimed.placing && o !in claimed.orders && next !in claimed.orders
    ensures CanOpenTwo(start)
  {
    var first := Record(o, ANY_TERMS, 1.0, O.Regular);
    var second := Record(next, ANY_TERMS, 1.0, O.Regular);
    ReachesNext(SERIALIZED, start, claimed, first);
    var one := Apply(SERIALIZED, claimed, first);
    ReachesNext(SERIALIZED, start, one, second);
    assert BothOpen(Apply(SERIALIZED, one, second), o, next);
  }

  lemma InFlightReleaseOpensTwo(h: Hedge, o: OrderId)
    requires Inv(h) && ClaimOf(h) == Some(o) && o !in h.orders && o in h.placing
    ensures CanOpenTwo(Apply(UNLOCKED, h, ReleaseMissing(o)))
  {
    UnlockedRelease(h, o);
    var next := BoundOf(h.claimed.Keys);
    assert next !in h.claimed && next !in h.orders && next != o;
    ClaimBesidePlacement(Apply(UNLOCKED, h, ReleaseMissing(o)), o, next);
  }

  /** A second claim taken while a placement that lost its claim is still running. */
  lemma ClaimBesidePlacement(start: Hedge, o: OrderId, next: OrderId)
    requires P.Reached(start.position) && start.position.live.Some? && ClaimOf(start).None?
    requires o in start.placing && o !in start.orders && next !in start.orders && next !in start.claimed && next != o
    ensures CanOpenTwo(start)
  {
    CanClaim(start.position, next);
    ReachesItself(SERIALIZED, start);
    ReachesNext(SERIALIZED, start, start, PositionCommand(ANY_NET));
    var ready := Apply(SERIALIZED, start, PositionCommand(ANY_NET));
    assert ready == start.(position := P.After(start.position, ANY_NET));
    ReachesNext(SERIALIZED, start, ready, Claim(next, 1.0, Sell));
    RecordBoth(start, Apply(SERIALIZED, ready, Claim(next, 1.0, Sell)), o, next);
  }

  /** Releasing the claim of a recordable order keeps the books exactly when it books what
      the order owes. */
  lemma CloseIsSafeIff(h: Hedge, o: OrderId, command: P.Command)
    requires Inv(h) && ClaimOf(h) == Some(o) && P.ClosesOrder(command, o)
    requires o in h.orders && Recordable(h.orders[o])
    ensures Inv(Close(h, o, command)) <==> Owed(h.orders, o) == Booked(command)
  {
    if Owed(h.orders, o) == Booked(command) {
      CloseKeepsInv(h, o, command);
    } else {
      WrongAmountBreaks(h, o, command);
    }
  }

  lemma WrongAmountBreaks(h: Hedge, o: OrderId, command: P.Command)
    requires P.Reached(h.position) && ClaimOf(h) == Some(o) && P.ClosesOrder(command, o)
    requires P.HedgeTotal(h.position.log) == OwedTotal(h.orders, h.released)
    requires Owed(h.orders, o) != Booked(command)
    ensures !Inv(Close(h, o, command))
  {
    P.CloseEffect(h.position, command, o);
    OwedAppend(h.orders, h.released, o);
  }

  /** The dispatch of a failed order keeps the books exactly when the order has no
      positive fill on record. */
  lemma FailedDispatchIsSafeIff(h: Hedge, o: OrderId, loaded: O.Order)
    requires Inv(h) && ClaimOf(h) == Some(o) && (o, loaded) in h.seen && loaded.Failed?
    ensures Inv(Apply(ANY_DISPATCH, h, DispatchFailed(o, loaded))) <==> !DropsFill(loaded)
  {
    FailedOwes(h, o, loaded);
    CloseIsSafeIff(h, o, P.FailOffChainOrder(o));
  }

  lemma FailedOwes(h: Hedge, o: OrderId, loaded: O.Order)
    requires SightingsHold(h) && JobsHold(h) && (o, loaded) in h.seen && loaded.Failed?
    ensures o in h.orders && Recordable(h.orders[o])
    ensures Owed(h.orders, o) == 0.0 <==> !DropsFill(loaded)
  {
    assert StillAgrees(loaded, h.orders[o]) && O.OnlyPricedFills(h.orders[o]);
  }

  /** The rejection job's position write keeps the books exactly when the priced fill on
      record is still the one it loaded before its order write. */
  lemma RejectionIsSafeIff(h: Hedge, o: OrderId, loaded: O.Order)
    requires Inv(h) && ClaimOf(h) == Some(o) && (o, loaded) in h.rejecting
    ensures o in h.orders
    ensures Inv(Apply(STALE_REJECTION, h, CloseRejected(o, loaded))) <==>
              O.PricedFill(loaded) == O.PricedFill(h.orders[o])
  {
    RejectionBooks(h, o, loaded);
    CloseIsSafeIff(h, o, O.RejectionCommand(loaded, o).value);
  }

  /** Every claim that was released is booked with its order's recorded fill, once. */
  ghost predicate Conserved(h: Hedge)
  {
    P.HedgeTotal(h.position.log) == OwedTotal(h.orders, h.released)
  }

  /** Every continuation that obeys the rules conserves net. */
  ghost predicate StaysConserved(start: Hedge)
  {
    forall h :: Reaches(SERIALIZED, start, h) ==> Conserved(h)
  }

  /** A released id claimed again: it is no longer among the claims that were released. */
  function Reopened(h: Hedge, o: OrderId, requested: P.PositiveShares, direction: Direction): Hedge
  {
    Apply(REUSED_IDS, h, Claim(o, requested, direction)).(released := Without(h.released, o))
  }

  function Without(ids: seq<OrderId>, o: OrderId): seq<OrderId>
  {
    if ids == [] then []
    else Without(ids[..|ids| - 1], o) + if ids[|ids| - 1] == o then [] else [ids[|ids| - 1]]
  }

  lemma {:induction false} WithoutKeepsRest(ids: seq<OrderId>, o: OrderId)
    requires Distinct(ids)
    ensures Distinct(Without(ids, o))
    ensures forall x :: x in Without(ids, o) <==> x in ids && x != o
  {
    if ids != [] {
      var front := ids[..|ids| - 1];
      WithoutKeepsRest(front, o);
      assert ids == front + [ids[|ids| - 1]];
      assert ids[|ids| - 1] !in front;
    }
  }

  lemma {:induction false} WithoutOwesRest(orders: map<OrderId, O.Order>, ids: seq<OrderId>, o: OrderId)
    requires Distinct(ids)
    ensures OwedTotal(orders, Without(ids, o)) == OwedTotal(orders, ids) - (if o in ids then Owed(orders, o) else 0.0)
  {
    if ids != [] {
      var front, last := ids[..|ids| - 1], ids[|ids| - 1];
      WithoutOwesRest(orders, front, o);
      assert ids == front + [last];
      if last == o {
        assert o !in front;
        assert Without(ids, o) == Without(front, o);
      } else {
        OwedAppend(orders, Without(front, o), last);
      }
    }
  }

  /** Claiming a released id again is harmless, in every continuation, exactly when its
      order has no fill to book: when it is missing, or ended without a priced fill. */
  lemma ReclaimIsSafeIff(h: Hedge, o: OrderId, requested: P.PositiveShares, direction: Direction)
    requires Inv(h) && o in h.released && P.Send(h.position, P.PlaceOffChainOrder(o, requested, direction)).Ok?
    ensures StaysConserved(Reopened(h, o, requested, direction)) <==> o !in h.orders || O.SignedFill(h.orders[o]) == 0.0
  {
    var start := Reopened(h, o, requested, direction);
    ReopenedBooks(h, o, requested, direction);
    if Owed(h.orders, o) == 0.0 {
      ReopenedKeepsInv(h, o, requested, direction);
      forall later | Reaches(SERIALIZED, start, later) ensures Conserved(later) {
        var actions :| RunFrom(SERIALIZED, start, actions) == later;
        RunFromKeepsInv(start, actions);
      }
    } else {
      ReachesItself(SERIALIZED, start);
    }
  }

  lemma ReopenedBooks(h: Hedge, o: OrderId, requested: P.PositiveShares, direction: Direction)
    requires Inv(h) && o in h.released && P.Send(h.position, P.PlaceOffChainOrder(o, requested, direction)).Ok?
    ensures Conserved(Reopened(h, o, requested, direction)) <==> Owed(h.orders, o) == 0.0
  {
    P.ClaimEffect(h.position, P.PlaceOffChainOrder(o, requested, direction));
    WithoutOwesRest(h.orders, h.released, o);
  }

  lemma ReopenedKeepsShape(h: Hedge, o: OrderId, requested: P.PositiveShares, direction: Direction)
    requires Shape(h) && JobsHold(h) && o in h.released && P.Reached(h.position)
    requires P.Send(h.position, P.PlaceOffChainOrder(o, requested, direction)).Ok?
    ensures var start := Reopened(h, o, requested, direction); Shape(start) && JobsHold(start)
  {
    P.ClaimEffect(h.position, P.PlaceOffChainOrder(o, requested, direction));
    WithoutKeepsRest(h.released, o);
  }

  lemma ReopenedKeepsInv(h: Hedge, o: OrderId, requested: P.PositiveShares, direction: Direction)
    requires Inv(h) && o in h.released && P.Send(h.position, P.PlaceOffChainOrder(o, requested, direction)).Ok?
    requires Owed(h.orders, o) == 0.0
    ensures Inv(Reopened(h, o, requested, direction))
  {
    P.ReachedAfter(h.position, P.PlaceOffChainOrder(o, requested, direction));
    ReopenedKeepsShape(h, o, requested, direction);
    ReopenedBooks(h, o, requested, direction);
  }

  /** And finalizing the reopened claim books its order's fill a second time. */
  lemma ReclaimBooksAgain(h: Hedge, o: OrderId, requested: P.PositiveShares, direction: Direction)
    requires Inv(h) && o in h.released && o in h.orders
    requires P.Send(h.position, P.PlaceOffChainOrder(o, requested, direction)).Ok?
    ensures var reclaimed := Apply(REUSED_IDS, h, Claim(o, requested, direction));
            var after := Apply(REUSED_IDS, Apply(REUSED_IDS, reclaimed, LoadOrder(o)), Finalize(o, h.orders[o]));
            P.HedgeTotal(after.position.log) == OwedTotal(h.orders, h.released) + O.SignedFill(h.orders[o])
  {
    var claim := P.PlaceOffChainOrder(o, requested, direction);
    P.ClaimEffect(h.position, claim);
    P.ReachedAfter(h.position, claim);
    FinalizeBooks(Apply(REUSED_IDS, h, Claim(o, requested, direction)), o);
  }

  lemma FinalizeBooks(h: Hedge, o: OrderId)
    requires P.Reached(h.position) && ClaimOf(h) == Some(o) && o in h.orders && Recordable(h.orders[o])
    ensures var after := Apply(REUSED_IDS, Apply(REUSED_IDS, h, LoadOrder(o)), Finalize(o, h.orders[o]));
            P.HedgeTotal(after.position.log) == P.HedgeTotal(h.position.log) + O.SignedFill(h.orders[o])
  {
    P.CloseEffect(h.position, O.PositionCommandFor(h.orders[o], o).value, o);
  }

  // ----- Concrete runs that fail without the rule -----

  const OPENING := P.AcknowledgeOnChainFill(P.SharesThreshold(1.0), TradeId(1, 0), 10.0, Buy, 1.0)
  const SELL_AAPL := O.Terms("AAPL", Sell, O.DryRun)

  lemma Next(d: Discipline, h: Hedge, action: Action) returns (after: Hedge)
    requires Reachable(d, h)
    ensures after == Apply(d, h, action) && Reachable(d, after)
  {
    after := Apply(d, h, action);
    ReachesNext(d, INITIAL, h, action);
  }

  /** A position ten shares long, past a threshold of one, with nothing pending. */
  predicate TenLong(stream: P.Stream)
  {
    && stream.live.Some? && stream.live.value.net == 10.0
    && stream.live.value.threshold == P.SharesThreshold(1.0)
  }

  lemma OpenPosition(d: Discipline) returns (h: Hedge)
    ensures Reachable(d, h) && h == INITIAL.(position := P.After(P.EMPTY, OPENING))
    ensures TenLong(h.position) && P.ClaimOf(h.position).None? && P.Reached(h.position)
  {
    ReachesItself(d, INITIAL);
    h := Next(d, INITIAL, PositionCommand(OPENING));
    P.EmptyIsReached();
    P.ReachedAfter(P.EMPTY, OPENING);
    P.CommitFirst(P.Initialized(OPENING.initial), P.AcknowledgeEvents(OPENING.trade, 10.0, Buy, 1.0));
    P.CommitAcknowledgement(P.Stream([P.Initialized(OPENING.initial)], P.Originate(P.Initialized(OPENING.initial))),
                            OPENING.trade, 10.0, Buy, 1.0);
  }

  lemma TakeClaim(d: Discipline, h: Hedge, o: OrderId) returns (after: Hedge)
    requires Reachable(d, h) && P.Reached(h.position)
    requires h.position.live.Some? && P.ClaimOf(h.position).None? && P.MeetsThreshold(h.position.live.value)
    requires d.freshIds ==> o !in h.claimed
    ensures Reachable(d, after) && P.Reached(after.position)
    ensures after == h.(position := after.position, placing := h.placing + {o}, claimed := after.claimed)
    ensures after.position == P.Stream(h.position.log + [P.OffChainOrderPlaced(o, 5.0, Sell)],
                                       Some(h.position.live.value.(pendingOrder := Some(o))))
    ensures after.claimed.Keys == h.claimed.Keys + {o}
  {
    after := Next(d, h, Claim(o, 5.0, Sell));
    P.ReachedAfter(h.position, P.PlaceOffChainOrder(o, 5.0, Sell));
    P.CommitEvent(h.position, P.OffChainOrderPlaced(o, 5.0, Sell));
  }

  /** Releasing a claim by failing its order. */
  lemma FailClaim(stream: P.Stream, o: OrderId)
    requires stream.live.Some? && P.ClaimOf(stream) == Some(o)
    ensures var after := P.Send(stream, P.FailOffChainOrder(o));
            && after.Ok? && after.value.live.Some?
            && after.value.log == stream.log + [P.OffChainOrderFailed(o)]
            && after.value.live.value.net == stream.live.value.net
            && after.value.live.value.threshold == stream.live.value.threshold
            && P.ClaimOf(after.value).None?
  {
    P.CommitEvent(stream, P.OffChainOrderFailed(o));
  }

  lemma ClaimFirst() returns (h: Hedge)
    ensures Reachable(UNLOCKED, h) && P.Reached(h.position) && TenLong(h.position) && P.ClaimOf(h.position) == Some(1)
    ensures h.orders == map[] && h.placing == {1} && h.claimed.Keys == {1}
  {
    h := OpenPosition(UNLOCKED);
    h := TakeClaim(UNLOCKED, h, 1);
  }

  /** The unlocked reconcile finds no order for a claim whose placement is about to record
      it, and releases the claim. */
  lemma ReleaseWhilePlacing() returns (h: Hedge)
    ensures Reachable(UNLOCKED, h) && P.Reached(h.position) && TenLong(h.position) && P.ClaimOf(h.position).None?
    ensures h.orders == map[] && h.placing == {1} && h.claimed.Keys == {1}
  {
    var claimed := ClaimFirst();
    FailClaim(claimed.position, 1);
    P.ReachedAfter(claimed.position, P.FailOffChainOrder(1));
    h := Next(UNLOCKED, claimed, ReleaseMissing(1));
  }

  /** A second placement then joins the first: two open orders. */
  lemma UnlockedReleaseLeavesTwoOpenOrders() returns (h: Hedge)
    ensures Reachable(UNLOCKED, h)
    ensures 1 in h.orders && 2 in h.orders && h.orders[1].Pending? && h.orders[2].Pending?
  {
    h := ReleaseWhilePlacing();
    h := TakeClaim(UNLOCKED, h, 2);
    h := Next(UNLOCKED, h, Record(1, SELL_AAPL, 5.0, O.Regular));
    h := Next(UNLOCKED, h, Record(2, SELL_AAPL, 5.0, O.Regular));
  }

  /** An order being placed is recorded, offered to the broker and accepted. */
  lemma PlaceFirst(d: Discipline, start: Hedge) returns (h: Hedge)
    requires Reachable(d, start) && start.orders == map[] && start.placing == {1} && 1 in start.claimed
    ensures Reachable(d, h) && h.position == start.position && h.claimed == start.claimed
    ensures h.orders == map[1 := SUBMITTED]
    ensures h.placing == {} && h.seen == start.seen && h.released == start.released
  {
    var call := Call(1, P.ClientKey(start.position, 1));
    h := Next(d, start, DeriveKey(1));
    h := Next(d, h, Record(1, SELL_AAPL, 5.0, O.Regular));
    h := Next(d, h, LoadForPlacement(call));
    h := Next(d, h, CallBroker(call, Accepted(5.0, O.Regular)));
    O.ApplyOne(Some(h.orders[1]), O.AcceptedEvent(5.0, O.Regular));
    h := Next(d, h, CommitReply(1, Accepted(5.0, O.Regular)));
  }

  /** A claimed order recorded, accepted by the broker and submitted. */
  lemma SubmitFirst(d: Discipline) returns (h: Hedge)
    ensures Reachable(d, h) && P.Reached(h.position) && TenLong(h.position) && P.ClaimOf(h.position) == Some(1)
    ensures h.orders == map[1 := SUBMITTED]
    ensures h.placing == {} && h.seen == {} && h.released == []
    ensures P.HedgeTotal(h.position.log) == 0.0
  {
    var idle := OpenPosition(d);
    var claimed := TakeClaim(d, idle, 1);
    P.Append(idle.position.log, P.OffChainOrderPlaced(1, 5.0, Sell));
    P.EmptyIsReached();
    P.UnrelatedEffect(P.EMPTY, OPENING);
    h := PlaceFirst(d, claimed);
  }

  const SUBMITTED := O.Submitted(SELL_AAPL, 5.0, O.Regular)
  const PART_FILLED := O.Failed(SELL_AAPL, 5.0, Some(O.Priced(3.0, 1.0)), true)

  /** The broker fills three of five shares. */
  lemma PartFill(d: Discipline, start: Hedge) returns (h: Hedge)
    requires Reachable(d, start) && start.orders == map[1 := SUBMITTED]
    ensures Reachable(d, h) && h == start.(orders := map[1 := O.PartiallyFilled(SELL_AAPL, 5.0, O.Regular, 3.0, 1.0)])
  {
    O.ApplyOne(Some(start.orders[1]), O.PartialFillEvent(3.0, 1.0));
    h := Next(d, start, OrderCommand(1, O.UpdatePartialFill(3.0, 1.0)));
    assert h.orders == map[1 := O.PartiallyFilled(SELL_AAPL, 5.0, O.Regular, 3.0, 1.0)];
  }

  /** And then fails the order. */
  lemma FailPartFilled(start: Hedge) returns (h: Hedge)
    requires Reachable(ANY_DISPATCH, start) && start.orders == map[1 := SUBMITTED]
    ensures Reachable(ANY_DISPATCH, h) && h == start.(orders := map[1 := PART_FILLED])
  {
    h := PartFill(ANY_DISPATCH, start);
    O.ApplyOne(Some(h.orders[1]), O.FailedEvent);
    h := Next(ANY_DISPATCH, h, OrderCommand(1, O.MarkFailed));
    assert h.orders == map[1 := PART_FILLED];
  }

  lemma LoadPartFilled() returns (h: Hedge)
    ensures Reachable(ANY_DISPATCH, h) && P.Reached(h.position) && P.ClaimOf(h.position) == Some(1)
    ensures P.HedgeTotal(h.position.log) == 0.0 && h.released == []
    ensures h.orders == map[1 := PART_FILLED] && (1, PART_FILLED) in h.seen
  {
    var submitted := SubmitFirst(ANY_DISPATCH);
    var failed := FailPartFilled(submitted);
    h := Next(ANY_DISPATCH, failed, LoadOrder(1));
  }

  /** The dispatch then releases the claim without recording the three shares. */
  lemma DispatchCanDropFill() returns (h: Hedge)
    ensures Reachable(ANY_DISPATCH, h) && h.released == [1]
    ensures P.HedgeTotal(h.position.log) == 0.0 && OwedTotal(h.orders, h.released) == -3.0
  {
    var loaded := LoadPartFilled();
    P.CloseEffect(loaded.position, P.FailOffChainOrder(1), 1);
    h := Next(ANY_DISPATCH, loaded, DispatchFailed(1, PART_FILLED));
    assert h.position == P.After(loaded.position, P.FailOffChainOrder(1));
    assert h.released == [] + [1] == [1];
    PartFilledOwes();
  }

  /** The rejection job loads the order, and a fill of three shares is recorded. */
  lemma FillBehindLoad() returns (h: Hedge)
    ensures Reachable(STALE_REJECTION, h) && P.Reached(h.position) && P.ClaimOf(h.position) == Some(1)
    ensures P.HedgeTotal(h.position.log) == 0.0 && h.released == []
    ensures h.orders == map[1 := O.PartiallyFilled(SELL_AAPL, 5.0, O.Regular, 3.0, 1.0)] && (1, SUBMITTED) in h.seen
  {
    h := SubmitFirst(STALE_REJECTION);
    h := Next(STALE_REJECTION, h, LoadOrder(1));
    h := PartFill(STALE_REJECTION, h);
  }

  /** The job then marks the order failed. */
  lemma RejectStale() returns (h: Hedge)
    ensures Reachable(STALE_REJECTION, h) && P.Reached(h.position) && P.ClaimOf(h.position) == Some(1)
    ensures P.HedgeTotal(h.position.log) == 0.0 && h.released == []
    ensures h.orders == map[1 := PART_FILLED] && (1, SUBMITTED) in h.rejecting
  {
    var loaded := FillBehindLoad();
    O.ApplyOne(Some(loaded.orders[1]), O.FailedEvent);
    h := Next(STALE_REJECTION, loaded, MarkRejected(1, SUBMITTED));
    assert h.orders == map[1 := PART_FILLED];
  }

  /** Its position write, decided from the load, then releases the claim without them. */
  lemma RejectionCanDropFill() returns (h: Hedge)
    ensures Reachable(STALE_REJECTION, h) && h.released == [1]
    ensures P.HedgeTotal(h.position.log) == 0.0 && OwedTotal(h.orders, h.released) == -3.0
  {
    var rejecting := RejectStale();
    P.CloseEffect(rejecting.position, P.FailOffChainOrder(1), 1);
    h := Next(STALE_REJECTION, rejecting, CloseRejected(1, SUBMITTED));
    assert h.position == P.After(rejecting.position, P.FailOffChainOrder(1));
    assert h.released == [] + [1] == [1];
    PartFilledOwes();
  }

  lemma PartFilledOwes()
    ensures OwedTotal(map[1 := PART_FILLED], [1]) == -3.0
  {
    OwedAppend(map[1 := PART_FILLED], [], 1);
    assert [] + [1] == [1];
  }

  /** A job redelivered after its order was filled and finalized claims the same id again;
      the sweep then finalizes it again and five shares are counted as ten. */
  lemma ReclaimCanCountTwice() returns (h: Hedge)
    ensures Reachable(REUSED_IDS, h)
    ensures h.orders == map[1 := O.Filled(SELL_AAPL, 5.0)] && P.HedgeTotal(h.position.log) == -10.0
  {
    var filled := O.Filled(SELL_AAPL, 5.0);
    var first := FillFirst();
    var freed := FinalizeFilled(first, filled);
    var again := TakeClaim(REUSED_IDS, freed, 1);
    P.Append(freed.position.log, P.OffChainOrderPlaced(1, 5.0, Sell));
    h := FinalizeFilled(again, filled);
  }

  lemma FillFirst() returns (h: Hedge)
    ensures Reachable(REUSED_IDS, h) && P.Reached(h.position) && TenLong(h.position) && P.ClaimOf(h.position) == Some(1)
    ensures h.orders == map[1 := O.Filled(SELL_AAPL, 5.0)] && (1, O.Filled(SELL_AAPL, 5.0)) in h.seen
    ensures P.HedgeTotal(h.position.log) == 0.0
  {
    h := SubmitFirst(REUSED_IDS);
    O.ApplyOne(Some(h.orders[1]), O.FilledEvent);
    h := Next(REUSED_IDS, h, OrderCommand(1, O.CompleteFill));
    h := Next(REUSED_IDS, h, LoadOrder(1));
  }

  lemma FinalizeFilled(h: Hedge, filled: O.Order) returns (after: Hedge)
    requires Reachable(REUSED_IDS, h) && P.Reached(h.position) && h.position.live.Some?
    requires P.ClaimOf(h.position) == Some(1)
    requires filled == O.Filled(SELL_AAPL, 5.0) && (1, filled) in h.seen
    ensures Reachable(REUSED_IDS, after) && P.Reached(after.position) && P.ClaimOf(after.position).None?
    ensures after.orders == h.orders && after.seen == h.seen
    ensures P.HedgeTotal(after.position.log) == P.HedgeTotal(h.position.log) - 5.0
    ensures after.position.live.Some? && after.position.live.value.net == h.position.live.value.net - 5.0
    ensures after.position.live.value.threshold == h.position.live.value.threshold
  {
    FillMovesNet(h.position);
    P.CloseEffect(h.position, FIVE_SOLD, 1);
    P.ReachedAfter(h.position, FIVE_SOLD);
    after := Next(REUSED_IDS, h, Finalize(1, filled));
    assert after.position == P.After(h.position, FIVE_SOLD);
  }

  const FIVE_SOLD := P.CompleteOffChainOrder(1, 5.0, Sell)

  /** Booking five shares sold. */
  lemma FillMovesNet(stream: P.Stream)
    requires stream.live.Some? && P.ClaimOf(stream) == Some(1)
    ensures var after := P.After(stream, FIVE_SOLD);
            && after.live.Some? && after.live.value.net == stream.live.value.net - 5.0
            && after.live.value.threshold == stream.live.value.threshold
  {
    P.CommitEvent(stream, P.OffChainOrderFilled(1, 5.0, Sell));
  }
}
