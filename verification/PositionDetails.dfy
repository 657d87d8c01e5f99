/**
 What a position's log says about its remaining fields, and what the commands that are
 neither fills nor claims do.
 */
module PositionDetails {
  import opened Common
  import opened Positions

  // ----- Read off the log, newest entry first -----

  /** The price of the newest entry that carries one. */
  function NewestPrice(log: seq<Event>): Option<real>
  {
    if log == [] then None
    else
      match log[|log| - 1]
      case OnChainOrderFilled(_, _, _, price) => Some(price)
      case ManualPositionAdjusted(_, _, Some(price)) => Some(price)
      case _ => NewestPrice(log[..|log| - 1])
  }

  function NewestThreshold(log: seq<Event>): Option<Threshold>
  {
    if log == [] then None
    else
      match log[|log| - 1]
      case Initialized(threshold) => Some(threshold)
      case ThresholdUpdated(threshold) => Some(threshold)
      case _ => NewestThreshold(log[..|log| - 1])
  }

  /** The oldest failure not yet answered by a fill, a cancellation or an adjustment. */
  function UnansweredFailure(log: seq<Event>): Option<OrderId>
  {
    if log == [] then None
    else
      var earlier := UnansweredFailure(log[..|log| - 1]);
      match log[|log| - 1]
      case OffChainOrderFailed(order) => if earlier.Some? then earlier else Some(order)
      case OffChainOrderFilled(_, _, _) => None
      case OffChainOrderCancelled(_) => None
      case ManualPositionAdjusted(_, _, _) => None
      case _ => earlier
  }

  /** The shares bought onchain. */
  function Bought(log: seq<Event>): real
  {
    if log == [] then 0.0
    else
      match log[|log| - 1]
      case OnChainOrderFilled(_, amount, Buy, _) => Bought(log[..|log| - 1]) + amount
      case _ => Bought(log[..|log| - 1])
  }

  ghost predicate Detailed(stream: Stream)
  {
    && (stream.live.None? <==> stream.log == [])
    && (stream.live.Some? ==>
          var p := stream.live.value;
          && p.lastPrice == NewestPrice(stream.log)
          && Some(p.threshold) == NewestThreshold(stream.log)
          && p.failureAnchor == UnansweredFailure(stream.log)
          && p.accumulatedLong == Bought(stream.log))
  }

  lemma {:induction false} CommitKeepsDetails(stream: Stream, events: seq<Event>)
    requires Detailed(stream) && Commit(stream, events).Some?
    ensures Detailed(Commit(stream, events).value)
    decreases |events|
  {
    if events != [] {
      match ApplyEvent(AsLoaded(stream.live), events[0])
      case Live(p) =>
        var next := Stream(stream.log + [events[0]], Some(p));
        assert next.log[..|next.log| - 1] == stream.log;
        CommitKeepsDetails(next, events[1..]);
    }
  }

  /** Over every command sequence: price, threshold, failure anchor and the amount bought
      are what the newest relevant entries of the log say. */
  lemma {:induction false} EveryRunIsDetailed(commands: seq<Command>)
    ensures Detailed(Run(commands))
  {
    if commands != [] {
      var before, command := Run(commands[..|commands| - 1]), commands[|commands| - 1];
      EveryRunIsDetailed(commands[..|commands| - 1]);
      if Handle(before.live, command).Ok? && Commit(before, Handle(before.live, command).value).Some? {
        CommitKeepsDetails(before, Handle(before.live, command).value);
      }
    }
  }

  // ----- The threshold -----

  /** A position accepts a claim exactly when it is free and its exposure, in shares or at
      the last price, has reached the threshold on either side. */
  lemma ClaimAcceptedIff(stream: Stream, order: OrderId, requested: PositiveShares, direction: Direction)
    requires Reached(stream) && stream.live.Some?
    ensures var p := stream.live.value;
            Send(stream, PlaceOffChainOrder(order, requested, direction)).Ok? <==>
              && p.pendingOrder == None
              && match p.threshold
                 case SharesThreshold(minimum) => p.net >= minimum || -p.net >= minimum
                 case DollarThreshold(minimum) =>
                   exists price :: p.lastPrice == Some(price) &&
                     ((p.net >= 0.0 && price * p.net >= minimum) || (p.net < 0.0 && price * -p.net >= minimum))
  {
    ClaimEffect(stream, PlaceOffChainOrder(order, requested, direction));
    var p := stream.live.value;
    if p.threshold.DollarThreshold? && p.lastPrice.Some? {
      assert p.lastPrice == Some(p.lastPrice.value);
    }
  }

  // ----- What claims and their ends leave in the log -----

  lemma ClaimIsLogged(stream: Stream, order: OrderId, requested: PositiveShares, direction: Direction)
    requires Send(stream, PlaceOffChainOrder(order, requested, direction)).Ok?
    ensures After(stream, PlaceOffChainOrder(order, requested, direction)).log ==
            stream.log + [OffChainOrderPlaced(order, requested, direction)]
  {
    CommitEvent(stream, OffChainOrderPlaced(order, requested, direction));
  }

  lemma EndIsLogged(stream: Stream, order: OrderId, shares: PositiveShares, direction: Direction)
    requires stream.live.Some? && ClaimOf(stream) == Some(order)
    ensures After(stream, CompleteOffChainOrder(order, shares, direction)).log ==
            stream.log + [OffChainOrderFilled(order, shares, direction)]
    ensures After(stream, FailOffChainOrder(order)).log == stream.log + [OffChainOrderFailed(order)]
    ensures After(stream, CancelOffChainOrder(order)).log == stream.log + [OffChainOrderCancelled(order)]
  {
    CommitEvent(stream, OffChainOrderFilled(order, shares, direction));
    FailureIsLogged(stream, order);
    CommitEvent(stream, OffChainOrderCancelled(order));
  }

  lemma FailureIsLogged(stream: Stream, order: OrderId)
    requires ClaimOf(stream) == Some(order)
    ensures After(stream, FailOffChainOrder(order)).log == stream.log + [OffChainOrderFailed(order)]
  {
    CommitEvent(stream, OffChainOrderFailed(order));
  }

  /** A fill opens a position that is not there yet, then is logged and noted as applied. */
  lemma FillIsLogged(stream: Stream, initial: Threshold, trade: TradeId, amount: real, direction: Direction,
                     price: real)
    requires Reached(stream) && !Filled(stream.log, trade)
    ensures var command := AcknowledgeOnChainFill(initial, trade, amount, direction, price);
            && Send(stream, command).Ok?
            && After(stream, command).log ==
               stream.log + (if stream.log == [] then [Initialized(initial)] else []) +
               [OnChainOrderFilled(trade, amount, direction, price), OnChainFillApplied(trade)]
            && trade in PendingIn(After(stream, command))
  {
    ReachedIsSound(stream);
    var command := AcknowledgeOnChainFill(initial, trade, amount, direction, price);
    AcknowledgeEffect(stream, command, (t: TradeId) => (amount, direction, price));
    var events := AcknowledgeEvents(trade, amount, direction, price);
    if stream.live.None? {
      ReachedNew(stream);
      CommitFirst(Initialized(initial), events);
      var created := Stream([Initialized(initial)], Originate(Initialized(initial)));
      CommitAcknowledgement(created, trade, amount, direction, price);
    } else {
      CommitAcknowledgement(stream, trade, amount, direction, price);
    }
  }

  /** A settle is logged for a trade still noted as applied, and is silent otherwise. */
  lemma SettleIsLogged(stream: Stream, trade: TradeId)
    requires Reached(stream)
    ensures Send(stream, SettleOnChainFill(trade)).Ok?
    ensures After(stream, SettleOnChainFill(trade)).log ==
            stream.log + if trade in PendingIn(stream) then [OnChainFillSettled(trade)] else []
  {
    if trade in PendingIn(stream) {
      CommitEvent(stream, OnChainFillSettled(trade));
    }
  }

  // ----- Which rejection a caller sees -----

  lemma RejectionReasons(stream: Stream, order: OrderId, shares: PositiveShares, direction: Direction)
    requires Reached(stream)
    ensures match Send(stream, PlaceOffChainOrder(order, shares, direction))
            case Err(Uninitialized) => stream.live == None
            case Err(PendingExecution(claimed)) => ClaimOf(stream) == Some(claimed)
            case Err(ThresholdNotMet) => stream.live.Some? && ClaimOf(stream) == None
            case Err(_) => false
            case Ok(_) => stream.live.Some? && ClaimOf(stream) == None
    ensures forall command | ClosesOrder(command, order) ::
              match Send(stream, command)
              case Err(Uninitialized) => stream.live == None
              case Err(NoPendingExecution) => stream.live.Some? && ClaimOf(stream) == None
              case Err(OffchainOrderIdMismatch(expected, actual)) =>
                ClaimOf(stream) == Some(expected) && actual == order && expected != order
              case Err(_) => false
              case Ok(_) => ClaimOf(stream) == Some(order)
  {
    ClaimEffect(stream, PlaceOffChainOrder(order, shares, direction));
    forall command | ClosesOrder(command, order)
      ensures Send(stream, command).Ok? <==> ClaimOf(stream) == Some(order)
    {
      CloseEffect(stream, command, order);
    }
  }

  // ----- Operator commands -----

  /** A manual adjustment is accepted exactly when no order is claimed, net is what the
      operator expected, and every price it would rely on is known and positive; net is
      then the target, and a price given replaces the last one. */
  lemma ManualAdjustment(stream: Stream, initial: Threshold, target: real, expected: Option<real>, price: Option<real>)
    requires Reached(stream)
    ensures var command := ManuallyAdjustPosition(initial, target, expected, price);
            var before := if stream.live.Some? then stream.live.value
                          else Position(0.0, 0.0, 0.0, None, None, None, {}, initial, None);
            && (Send(stream, command).Ok? <==>
                  && before.pendingOrder == None
                  && (expected == None || expected == Some(before.net))
                  && (price.Some? ==> price.value > 0.0)
                  && (price.None? && before.lastPrice.Some? ==> before.lastPrice.value > 0.0)
                  && (before.threshold.DollarThreshold? && target != 0.0 ==> price.Some? || before.lastPrice.Some?))
            && (Send(stream, command).Ok? ==>
                  After(stream, command).live ==
                  Some(before.(net := target, failureAnchor := None,
                               lastPrice := if price.Some? then price else before.lastPrice)))
  {
    if stream.live.None? {
      ReachedNew(stream);
      var events := [Initialized(initial), ManualPositionAdjusted(0.0, target, price)];
      assert events == [events[0]] + [events[1]];
      CommitFirst(events[0], [events[1]]);
      CommitEvent(Stream([events[0]], Originate(events[0])), events[1]);
    } else {
      CommitEvent(stream, ManualPositionAdjusted(stream.live.value.net, target, price));
    }
  }

  /** A new threshold is accepted on every initialized position and changes nothing else. */
  lemma ThresholdUpdate(stream: Stream, threshold: Threshold)
    requires Reached(stream)
    ensures Send(stream, UpdateThreshold(threshold)).Ok? <==> stream.live.Some?
    ensures stream.live.Some? ==>
              After(stream, UpdateThreshold(threshold)).live == Some(stream.live.value.(threshold := threshold))
  {
    if stream.live.Some? {
      CommitEvent(stream, ThresholdUpdated(threshold));
    }
  }
}
