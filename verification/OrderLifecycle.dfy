/**
 What each command makes of an order in each of its states, end to end, and what an ended
 order is worth to the position that claims it.
 */
module OrderLifecycle {
  import opened Common
  import opened OffchainOrders
  import P = Positions

  lemma NoEvents(order: Order)
    ensures ApplyAll(Some(order), []) == Some(order)
  {
  }

  /** An order that does not exist yet is created by a placement and by nothing else. */
  lemma Creation(command: Command)
    ensures Send(None, command) ==
            match command
            case Place(terms, shares, session) => Some(Pending(terms, shares, session))
            case _ => None
  {
    if command.Place? {
      ApplyOne(None, PlacedEvent(command.terms, command.shares, command.session));
    }
  }

  /** A replayed placement is accepted with the same terms only, and changes nothing. */
  lemma PlaceReplay(order: Order, terms: Terms, shares: PositiveShares, session: Session)
    ensures Send(Some(order), Place(terms, shares, session)) == if terms == order.terms then Some(order) else None
  {
    NoEvents(order);
  }

  /** Acceptance gives a pending order the accepted size and session; a refusal fails it
      without its having reached the broker; neither does anything to any other order. */
  lemma BrokerAnswer(order: Order, placed: PositiveShares, session: Session)
    ensures Send(Some(order), MarkAccepted(placed, session)) ==
            Some(if order.Pending? then Submitted(order.terms, placed, session) else order)
    ensures Send(Some(order), MarkPlacementFailed) ==
            Some(if order.Pending? then Failed(order.terms, order.shares, None, false) else order)
  {
    NoEvents(order);
    ApplyOne(Some(order), AcceptedEvent(placed, session));
    ApplyOne(Some(order), FailedEvent);
  }

  /** A reported partial fill replaces a smaller one on record, keeps a larger one, and is
      refused by an order the broker does not have. */
  lemma PartialFill(order: Order, filled: real, price: real)
    ensures Send(Some(order), UpdatePartialFill(filled, price)) ==
            match order
            case Submitted(terms, shares, session) => Some(PartiallyFilled(terms, shares, session, filled, price))
            case PartiallyFilled(terms, shares, session, known, _) =>
              Some(if filled > known then PartiallyFilled(terms, shares, session, filled, price) else order)
            case Cancelling(terms, shares, session, None) =>
              Some(if filled > 0.0 then Cancelling(terms, shares, session, Some(Priced(filled, price))) else order)
            case Cancelling(terms, shares, session, Some(Priced(known, _))) =>
              Some(if filled > known then Cancelling(terms, shares, session, Some(Priced(filled, price))) else order)
            case Cancelling(terms, shares, session, Some(Unpriced(known))) =>
              Some(if filled > known then Cancelling(terms, shares, session, Some(Priced(filled, price))) else order)
            case _ => None
  {
    NoEvents(order);
    ApplyOne(Some(order), PartialFillEvent(filled, price));
  }

  /** Completion, confirmation of a cancel, and failure end an order with its size and the
      fill on record; what has ended otherwise refuses them. */
  lemma Endings(order: Order)
    ensures Send(Some(order), CompleteFill) ==
            if order.Submitted? || order.PartiallyFilled? || order.Cancelling?
            then Some(Filled(order.terms, order.shares)) else None
    ensures Send(Some(order), ConfirmCancellation) ==
            match order
            case Cancelling(terms, shares, _, retained) => Some(Cancelled(terms, shares, retained))
            case _ => None
    ensures Send(Some(order), MarkFailed) ==
            match order
            case Pending(terms, shares, _) => Some(Failed(terms, shares, None, false))
            case Submitted(terms, shares, _) => Some(Failed(terms, shares, None, true))
            case PartiallyFilled(terms, shares, _, filled, price) =>
              Some(Failed(terms, shares, Some(Priced(filled, price)), true))
            case Cancelling(terms, shares, _, retained) => Some(Failed(terms, shares, retained, true))
            case Failed(_, _, _, _) => Some(order)
            case _ => None
  {
    NoEvents(order);
    ApplyOne(Some(order), FilledEvent);
    ApplyOne(Some(order), CancelledEvent);
    ApplyOne(Some(order), FailedEvent);
  }

  // ----- Cancelling -----

  /** A cancel of an order the broker does not have is refused, except that a repeated one
      is accepted and changes nothing. */
  lemma CancelElsewhere(order: Order, status: Option<BrokerState>, reply: CancelReply)
    requires !order.Submitted? && !order.PartiallyFilled?
    ensures Send(Some(order), CancelOrder(status, reply)) == if order.Cancelling? then Some(order) else None
  {
    NoEvents(order);
  }

  /** The fill an order with the broker has on record. */
  function OnRecord(order: Order): Option<RetainedFill>
    requires order.Submitted? || order.PartiallyFilled?
  {
    if order.PartiallyFilled? then Some(Priced(order.sharesFilled, order.avgPrice)) else None
  }

  /** With the order still working: the request is accepted, finds the order gone, or
      fails without a trace; without a status nothing is even asked. */
  lemma CancelWorking(order: Order)
    requires order.Submitted? || order.PartiallyFilled?
    ensures Send(Some(order), CancelOrder(Some(Working), Requested)) ==
            Some(Cancelling(order.terms, order.shares, order.session, OnRecord(order)))
    ensures Send(Some(order), CancelOrder(Some(Working), OrderNotFound)) ==
            Some(Cancelled(order.terms, order.shares, OnRecord(order)))
    ensures Send(Some(order), CancelOrder(Some(Working), CallFailed)) == None
    ensures forall reply :: Send(Some(order), CancelOrder(None, reply)) == None
  {
    assert [] + [CancelRequestedEvent] == [CancelRequestedEvent] && [] + [CancelledEvent] == [CancelledEvent];
    ApplyOne(Some(order), CancelRequestedEvent);
    ApplyOne(Some(order), CancelledEvent);
  }

  /** With the order partly filled at the broker: the newer fill is kept through the
      cancel; one without a price, or negative, refuses it. */
  lemma CancelPartlyDone(order: Order, filled: real, price: Option<real>)
    requires order.Submitted? || order.PartiallyFilled?
    ensures var newer := filled != 0.0 && !(order.PartiallyFilled? && filled <= order.sharesFilled);
            var status := Some(PartiallyDone(filled, price));
            if filled < 0.0 || (newer && price.None?) then
              forall reply :: Send(Some(order), CancelOrder(status, reply)) == None
            else
              var kept := if newer then Some(Priced(filled, price.value)) else OnRecord(order);
              && Send(Some(order), CancelOrder(status, Requested)) ==
                 Some(Cancelling(order.terms, order.shares, order.session, kept))
              && Send(Some(order), CancelOrder(status, OrderNotFound)) ==
                 Some(Cancelled(order.terms, order.shares, kept))
              && Send(Some(order), CancelOrder(status, CallFailed)) == None
  {
    var newer := filled != 0.0 && !(order.PartiallyFilled? && filled <= order.sharesFilled);
    assert [] + [CancelRequestedEvent] == [CancelRequestedEvent] && [] + [CancelledEvent] == [CancelledEvent];
    ApplyOne(Some(order), CancelRequestedEvent);
    ApplyOne(Some(order), CancelledEvent);
    if newer && filled > 0.0 && price.Some? {
      var fill := PartialFillEvent(filled, price.value);
      assert [fill] + [CancelRequestedEvent] == [fill, CancelRequestedEvent];
      assert [fill] + [CancelledEvent] == [fill, CancelledEvent];
      ApplyTwo(Some(order), fill, CancelRequestedEvent);
      ApplyTwo(Some(order), fill, CancelledEvent);
    }
  }

  /** With the order ended at the broker no request is sent: it ends here the same way,
      with a newer priced fill recorded first; an unpriced or negative one refuses. */
  lemma CancelDone(order: Order, reply: CancelReply)
    requires order.Submitted? || order.PartiallyFilled?
    ensures Send(Some(order), CancelOrder(Some(Done), reply)) == Some(Filled(order.terms, order.shares))
    ensures Send(Some(order), CancelOrder(Some(Rejected(None, None)), reply)) ==
            Some(Failed(order.terms, order.shares, OnRecord(order), true))
  {
    ApplyOne(Some(order), FilledEvent);
    ApplyOne(Some(order), FailedEvent);
  }

  lemma CancelEnded(order: Order, filled: real, price: Option<real>, reply: CancelReply)
    requires order.Submitted? || order.PartiallyFilled?
    ensures var newer := filled != 0.0 && !(order.PartiallyFilled? && filled <= order.sharesFilled);
            var stopped := Send(Some(order), CancelOrder(Some(Stopped(filled, price)), reply));
            var rejected := Send(Some(order), CancelOrder(Some(Rejected(Some(filled), price)), reply));
            if filled < 0.0 || (newer && price.None?) then stopped == None && rejected == None
            else
              var kept := if newer then Some(Priced(filled, price.value)) else OnRecord(order);
              && stopped == Some(Cancelled(order.terms, order.shares, kept))
              && rejected == Some(Failed(order.terms, order.shares, kept, true))
  {
    var newer := filled != 0.0 && !(order.PartiallyFilled? && filled <= order.sharesFilled);
    ApplyOne(Some(order), CancelledEvent);
    ApplyOne(Some(order), FailedEvent);
    if newer && filled > 0.0 && price.Some? {
      ApplyTwo(Some(order), PartialFillEvent(filled, price.value), CancelledEvent);
      ApplyTwo(Some(order), PartialFillEvent(filled, price.value), FailedEvent);
    }
  }

  /** Why a command is refused. */
  lemma RejectionReasons(state: Option<Order>, command: Command)
    ensures match Handle(state, command)
            case Ok(_) => state.Some? || command.Place?
            case Err(NotPlaced) => state == None
            case Err(PlacePayloadMismatch) => command.Place? && state.Some? && command.terms != state.value.terms
            case Err(NotSubmitted) => !command.Place? && state.Some? && state.value.Pending?
            case Err(AlreadyCompleted) =>
              state.Some? && (state.value.Filled? || state.value.Failed? || state.value.Cancelled?)
            case Err(CancellationNotRequested) =>
              command == ConfirmCancellation && state.Some? &&
              (state.value.Pending? || state.value.Submitted? || state.value.PartiallyFilled?)
            case Err(PreCancelStatusFetchFailed) => command.CancelOrder? && command.status == None
            case Err(CancelFailed) => command.CancelOrder? && command.reply == CallFailed
            case Err(PreCancelPartialFillMissingAvgPrice) =>
              command.CancelOrder? && command.status.Some? &&
              (match command.status.value
               case PartiallyDone(filled, price) => filled > 0.0 && price == None
               case Stopped(filled, price) => filled > 0.0 && price == None
               case Rejected(Some(filled), price) => filled > 0.0 && price == None
               case _ => false)
            case Err(InvalidTerminalFillQuantity) =>
              command.CancelOrder? && command.status.Some? &&
              match command.status.value
              case PartiallyDone(filled, _) => filled < 0.0
              case Stopped(filled, _) => filled < 0.0
              case Rejected(Some(filled), _) => filled < 0.0
              case _ => false
  {
  }

  // ----- What an ended order is worth -----

  /** The position command for an ended order, state by state. */
  lemma Finalizations(order: Order, id: OrderId)
    ensures PositionCommandFor(order, id) ==
            match order
            case Filled(terms, shares) => Some(P.CompleteOffChainOrder(id, shares, terms.direction))
            case Cancelled(terms, _, Some(Priced(filled, _))) =>
              Some(if filled > 0.0 then P.CompleteOffChainOrder(id, filled, terms.direction)
                   else P.CancelOffChainOrder(id))
            case Cancelled(_, _, Some(Unpriced(filled))) =>
              if filled > 0.0 then None else Some(P.CancelOffChainOrder(id))
            case Cancelled(_, _, None) => Some(P.CancelOffChainOrder(id))
            case Failed(terms, _, Some(Priced(filled, _)), true) =>
              Some(if filled > 0.0 then P.CompleteOffChainOrder(id, filled, terms.direction)
                   else P.FailOffChainOrder(id))
            case Failed(_, _, Some(Unpriced(filled)), true) =>
              if filled > 0.0 then None else Some(P.FailOffChainOrder(id))
            case Failed(_, _, _, _) => Some(P.FailOffChainOrder(id))
            case _ => None
  {
  }

  /** What the dispatch behind a placement and the rejection job send, state by state of the
      order they loaded; neither sends anything for a filled order. */
  lemma DispatchAndRejection(order: Order, id: OrderId)
    ensures DispatchCommand(None, id) == Some(P.FailOffChainOrder(id))
    ensures DispatchCommand(Some(order), id) ==
            match order
            case Failed(_, _, _, _) => Some(P.FailOffChainOrder(id))
            case Cancelled(terms, _, Some(Priced(filled, _))) =>
              Some(if filled > 0.0 then P.CompleteOffChainOrder(id, filled, terms.direction)
                   else P.CancelOffChainOrder(id))
            case Cancelled(_, _, Some(Unpriced(filled))) =>
              if filled > 0.0 then None else Some(P.CancelOffChainOrder(id))
            case Cancelled(_, _, None) => Some(P.CancelOffChainOrder(id))
            case _ => None
    ensures RejectionCommand(order, id).None? <==> order.Filled?
    ensures order.Pending? || order.Submitted? ==> RejectionCommand(order, id) == Some(P.FailOffChainOrder(id))
  {
    Finalizations(order, id);
  }

  /** The signed shares an order contributes to net: a buy adds, a sell subtracts. */
  lemma Worth(order: Order)
    ensures SignedFill(order) ==
            match order
            case Filled(terms, shares) => var whole: real := shares; if terms.direction == Buy then whole else -whole
            case Cancelled(terms, _, Some(Priced(filled, _))) =>
              if filled <= 0.0 then 0.0 else if terms.direction == Buy then filled else -filled
            case Failed(terms, _, Some(Priced(filled, _)), true) =>
              if filled <= 0.0 then 0.0 else if terms.direction == Buy then filled else -filled
            case _ => 0.0
    ensures HoldsUnpricedFill(order) <==>
            match order
            case Cancelled(_, _, Some(Unpriced(filled))) => filled > 0.0
            case Failed(_, _, Some(Unpriced(filled)), true) => filled > 0.0
            case _ => false
  {
  }
}
