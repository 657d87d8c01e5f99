/**
 The OffchainOrder aggregate: the lifecycle of one broker order, and the mapping from
 a terminal order to the command that finalizes the position claiming it.
 */
module OffchainOrders {
  import opened Common
  import P = Positions

  type PositiveShares = P.PositiveShares

  datatype Session = Regular | Extended | Closed

  datatype Executor = AlpacaBroker | DryRun

  datatype Terms = Terms(symbol: Symbol, direction: Direction, executor: Executor)

  /** The part of an order filled before it ended, with or without an average price. */
  datatype RetainedFill = Priced(shares: real, avgPrice: real) | Unpriced(shares: real)

  datatype Order =
    | Pending(terms: Terms, shares: PositiveShares, session: Session)
    | Submitted(terms: Terms, shares: PositiveShares, session: Session)
    | PartiallyFilled(terms: Terms, shares: PositiveShares, session: Session, sharesFilled: real, avgPrice: real)
    | Cancelling(terms: Terms, shares: PositiveShares, session: Session, retained: Option<RetainedFill>)
    | Filled(terms: Terms, shares: PositiveShares)
    | Failed(terms: Terms, shares: PositiveShares, retained: Option<RetainedFill>, reachedBroker: bool)
    | Cancelled(terms: Terms, shares: PositiveShares, retained: Option<RetainedFill>)
  {
    predicate Terminal() { Filled? || Failed? || Cancelled? }

    predicate Live() { Submitted? || PartiallyFilled? || Cancelling? }
  }

  datatype Event =
    | PlacedEvent(terms: Terms, shares: PositiveShares, session: Session)
    | AcceptedEvent(placedShares: PositiveShares, session: Session)
    | PartialFillEvent(sharesFilled: real, avgPrice: real)
    | FilledEvent
    | CancelRequestedEvent
    | FailedEvent
    | CancelledEvent

  /** What the broker reports when asked about an order just before a cancel. */
  datatype BrokerState =
    | Working
    | PartiallyDone(filled: real, avgPrice: Option<real>)
    | Done
    | Rejected(filledIfAny: Option<real>, avgPrice: Option<real>)
    | Stopped(filled: real, avgPrice: Option<real>)

  datatype CancelReply = Requested | OrderNotFound | CallFailed

  datatype Command =
    | Place(terms: Terms, shares: PositiveShares, session: Session)
    | MarkAccepted(placedShares: PositiveShares, session: Session)
    | MarkPlacementFailed
    | UpdatePartialFill(sharesFilled: real, avgPrice: real)
    | CompleteFill
    | CancelOrder(status: Option<BrokerState>, reply: CancelReply)
    | ConfirmCancellation
    | MarkFailed

  datatype Error =
    | NotPlaced
    | NotSubmitted
    | AlreadyCompleted
    | CancellationNotRequested
    | PlacePayloadMismatch
    | CancelFailed
    | PreCancelStatusFetchFailed
    | PreCancelPartialFillMissingAvgPrice
    | InvalidTerminalFillQuantity

  function Originate(event: Event): Option<Order>
  {
    match event
    case PlacedEvent(terms, shares, session) => Some(Pending(terms, shares, session))
    case _ => None
  }

  function RetainedBy(order: Order): Option<RetainedFill>
  {
    match order
    case PartiallyFilled(_, _, _, filled, price) => Some(Priced(filled, price))
    case Cancelling(_, _, _, retained) => retained
    case Failed(_, _, retained, _) => retained
    case Cancelled(_, _, retained) => retained
    case _ => None
  }

  function Evolve(order: Order, event: Event): Option<Order>
  {
    match event
    case PlacedEvent(_, _, _) => None
    case AcceptedEvent(placed, session) =>
      if order.Pending? then Some(Submitted(order.terms, placed, session)) else None
    case PartialFillEvent(filled, price) =>
      if order.Submitted? || order.PartiallyFilled? then
        Some(PartiallyFilled(order.terms, order.shares, order.session, filled, price))
      else if order.Cancelling? then
        Some(Cancelling(order.terms, order.shares, order.session, Some(Priced(filled, price))))
      else None
    case FilledEvent =>
      if order.Live() then Some(Filled(order.terms, order.shares)) else None
    case CancelRequestedEvent =>
      if order.Submitted? || order.PartiallyFilled? then
        Some(Cancelling(order.terms, order.shares, order.session, RetainedBy(order)))
      else None
    case FailedEvent =>
      if order.Terminal() then None
      else Some(Failed(order.terms, order.shares, RetainedBy(order), !order.Pending?))
    case CancelledEvent =>
      if order.Live() then Some(Cancelled(order.terms, order.shares, RetainedBy(order))) else None
  }

  /** Applies the broker's terminal fill ahead of the terminal event; a positive fill
      without a price blocks rather than being dropped. */
  function ReconcileTerminalFill(local: Option<real>, filled: Option<real>, price: Option<real>,
                                 terminal: Event): Result<seq<Event>, Error>
  {
    if filled.None? then Ok([terminal])
    else if filled.value == 0.0 then Ok([terminal])
    else if filled.value < 0.0 then Err(InvalidTerminalFillQuantity)
    else if local.Some? && filled.value <= local.value then Ok([terminal])
    else if price.Some? then Ok([PartialFillEvent(filled.value, price.value), terminal])
    else Err(PreCancelPartialFillMissingAvgPrice)
  }

  function ReconcilePreCancel(local: Option<real>, status: BrokerState): Result<seq<Event>, Error>
  {
    match status
    case PartiallyDone(filled, price) =>
      if filled == 0.0 then Ok([])
      else if filled < 0.0 then Err(InvalidTerminalFillQuantity)
      else if local.Some? && filled <= local.value then Ok([])
      else if price.None? then Err(PreCancelPartialFillMissingAvgPrice)
      else Ok([PartialFillEvent(filled, price.value)])
    case Done => Ok([FilledEvent])
    case Rejected(filled, price) => ReconcileTerminalFill(local, filled, price, FailedEvent)
    case Stopped(filled, price) => ReconcileTerminalFill(local, Some(filled), price, CancelledEvent)
    case Working => Ok([])
  }

  predicate EndsOrder(event: Event)
  {
    event.FilledEvent? || event.FailedEvent? || event.CancelledEvent?
  }

  function CancelEvents(order: Order, status: Option<BrokerState>, reply: CancelReply): Result<seq<Event>, Error>
    requires order.Submitted? || order.PartiallyFilled?
  {
    if status.None? then Err(PreCancelStatusFetchFailed)
    else
      var local := if order.PartiallyFilled? then Some(order.sharesFilled) else None;
      match ReconcilePreCancel(local, status.value)
      case Err(error) => Err(error)
      case Ok(events) =>
        if events != [] && EndsOrder(events[|events| - 1]) then Ok(events)
        else
          match reply
          case CallFailed => Err(CancelFailed)
          case Requested => Ok(events + [CancelRequestedEvent])
          case OrderNotFound => Ok(events + [CancelledEvent])
  }

  function Initialize(command: Command): Result<seq<Event>, Error>
  {
    match command
    case Place(terms, shares, session) => Ok([PlacedEvent(terms, shares, session)])
    case _ => Err(NotPlaced)
  }

  function Transition(order: Order, command: Command): Result<seq<Event>, Error>
  {
    match command
    case Place(terms, _, _) =>
      if terms != order.terms then Err(PlacePayloadMismatch) else Ok([])
    case CancelOrder(status, reply) =>
      if order.Submitted? || order.PartiallyFilled? then CancelEvents(order, status, reply)
      else if order.Pending? then Err(NotSubmitted)
      else if order.Cancelling? then Ok([])
      else Err(AlreadyCompleted)
    case ConfirmCancellation =>
      if order.Cancelling? then Ok([CancelledEvent])
      else if order.Terminal() then Err(AlreadyCompleted)
      else Err(CancellationNotRequested)
    case UpdatePartialFill(filled, price) =>
      var local := match order
        case PartiallyFilled(_, _, _, shares, _) => Some(shares)
        case Cancelling(_, _, _, retained) => Some(if retained.Some? then retained.value.shares else 0.0)
        case _ => None;
      if order.Pending? then Err(NotSubmitted)
      else if order.Terminal() then Err(AlreadyCompleted)
      else if local.Some? && filled <= local.value then Ok([])
      else Ok([PartialFillEvent(filled, price)])
    case CompleteFill =>
      if order.Live() then Ok([FilledEvent])
      else if order.Pending? then Err(NotSubmitted)
      else Err(AlreadyCompleted)
    case MarkAccepted(placed, session) =>
      if order.Pending? then Ok([AcceptedEvent(placed, session)]) else Ok([])
    case MarkPlacementFailed =>
      if order.Pending? then Ok([FailedEvent]) else Ok([])
    case MarkFailed =>
      if !order.Terminal() then Ok([FailedEvent])
      else if order.Failed? then Ok([])
      else Err(AlreadyCompleted)
  }

  function Handle(state: Option<Order>, command: Command): Result<seq<Event>, Error>
  {
    match state
    case None => Initialize(command)
    case Some(order) => Transition(order, command)
  }

  function Apply(state: Option<Order>, event: Event): Option<Order>
  {
    match state
    case None => Originate(event)
    case Some(order) => Evolve(order, event)
  }

  function ApplyAll(state: Option<Order>, events: seq<Event>): Option<Order>
    decreases |events|
  {
    if events == [] then state
    else
      var next := Apply(state, events[0]);
      if next.None? then None else ApplyAll(next, events[1..])
  }

  /** One command against the live order; None when it is rejected. */
  function Send(state: Option<Order>, command: Command): Option<Order>
  {
    match Handle(state, command)
    case Err(_) => None
    case Ok(events) => ApplyAll(state, events)
  }

  /** The order after a command, whether or not it was accepted. */
  function After(order: Order, command: Command): Order
  {
    var sent := Send(Some(order), command);
    if sent.Some? then sent.value else order
  }

  // ----- What every command keeps -----

  /** Progress through the lifecycle; it never goes backwards. */
  function Phase(order: Order): nat
  {
    match order
    case Pending(_, _, _) => 0
    case Submitted(_, _, _) => 1
    case PartiallyFilled(_, _, _, _, _) => 1
    case Cancelling(_, _, _, _) => 2
    case _ => 3
  }

  lemma ApplyOne(state: Option<Order>, event: Event)
    ensures ApplyAll(state, [event]) == Apply(state, event)
  {
    assert [event][1..] == [];
  }

  lemma ApplyTwo(state: Option<Order>, first: Event, second: Event)
    requires Apply(state, first).Some?
    ensures ApplyAll(state, [first, second]) == Apply(Apply(state, first), second)
  {
    assert [first, second][1..] == [second];
    ApplyOne(Apply(state, first), second);
  }

  /** A cancel emits one closing event, possibly behind one newer partial fill. */
  lemma CancelShape(order: Order, status: Option<BrokerState>, reply: CancelReply)
    requires order.Submitted? || order.PartiallyFilled?
    requires CancelEvents(order, status, reply).Ok?
    ensures var events := CancelEvents(order, status, reply).value;
            && 1 <= |events| <= 2
            && (EndsOrder(events[|events| - 1]) || events[|events| - 1].CancelRequestedEvent?)
            && (|events| == 2 ==> events[0].PartialFillEvent?)
            && (|events| == 2 && order.PartiallyFilled? ==> events[0].sharesFilled > order.sharesFilled)
  {
  }

  /** An accepted cancel ends the order or leaves it Cancelling, keeping whatever fill
      is on record. */
  lemma CancelOutcome(order: Order, events: seq<Event>)
    requires order.Submitted? || order.PartiallyFilled?
    requires 1 <= |events| <= 2
    requires EndsOrder(events[|events| - 1]) || events[|events| - 1].CancelRequestedEvent?
    requires |events| == 2 ==> events[0].PartialFillEvent?
    requires |events| == 2 && order.PartiallyFilled? ==> events[0].sharesFilled > order.sharesFilled
    ensures var after := ApplyAll(Some(order), events);
            && after.Some? && after.value.terms == order.terms && after.value.shares == order.shares
            && (after.value.Cancelling? || after.value.Terminal())
            && (after.value.Filled? || RetainedShares(after.value) >= RetainedShares(order) || order.Submitted?)
            && OnlyPricedFills(after.value)
  {
    if |events| == 1 {
      assert events == [events[0]];
      ApplyOne(Some(order), events[0]);
    } else {
      assert events == [events[0], events[1]];
      ApplyTwo(Some(order), events[0], events[1]);
    }
  }

  function RetainedShares(order: Order): real
  {
    if RetainedBy(order).Some? then RetainedBy(order).value.shares else 0.0
  }

  /** What every order built from commands satisfies: recorded fills carry a price, and
      an order that failed before reaching the broker retains nothing. */
  predicate OnlyPricedFills(order: Order)
  {
    && (RetainedBy(order).Some? ==> RetainedBy(order).value.Priced?)
    && (order.Failed? && !order.reachedBroker ==> order.retained.None?)
  }

  /** One command, accepted or not: the order keeps its terms, keeps its size once the
      broker has it, never moves back in its lifecycle, a terminal order never changes at
      all, a recorded fill never regresses before the order is completely filled, and
      recorded fills stay priced. */
  lemma CommandKeeps(order: Order, command: Command)
    ensures var after := After(order, command);
            && after.terms == order.terms
            && (!order.Pending? ==> after.shares == order.shares)
            && Phase(order) <= Phase(after)
            && (order.Terminal() ==> after == order)
            && (order.PartiallyFilled? || order.Cancelling? ==>
                after.Filled? || RetainedShares(after) >= RetainedShares(order))
            && (OnlyPricedFills(order) ==> OnlyPricedFills(after))
    ensures Handle(Some(order), command).Ok? ==> Send(Some(order), command).Some?
  {
    match Handle(Some(order), command)
    case Err(_) =>
    case Ok(events) =>
      if command.CancelOrder? && (order.Submitted? || order.PartiallyFilled?) {
        CancelShape(order, command.status, command.reply);
        CancelOutcome(order, events);
      } else if events != [] {
        assert events == [events[0]];
        ApplyOne(Some(order), events[0]);
      }
  }

  function RunFrom(order: Order, commands: seq<Command>): Order
  {
    if commands == [] then order
    else After(RunFrom(order, commands[..|commands| - 1]), commands[|commands| - 1])
  }

  /** Over every command sequence on a placed order: it never returns to Pending, it
      stays terminal once terminal, and no fill it retains is ever without a price. */
  lemma {:induction false} EveryRunKeeps(order: Order, commands: seq<Command>)
    ensures var after := RunFrom(order, commands);
            && after.terms == order.terms && Phase(order) <= Phase(after)
            && (!order.Pending? ==> after.shares == order.shares)
            && (order.Terminal() ==> after == order)
            && (OnlyPricedFills(order) ==> OnlyPricedFills(after))
  {
    if commands != [] {
      EveryRunKeeps(order, commands[..|commands| - 1]);
      CommandKeeps(RunFrom(order, commands[..|commands| - 1]), commands[|commands| - 1]);
    }
  }

  // ----- Finalizing the owning position -----

  datatype Finalization =
    | Complete(shares: PositiveShares, direction: Direction)
    | NoFillCancelled
    | NoFillFailed
    | UnpricedFill(filled: real)

  function ClassifyTerminalFill(retained: Option<RetainedFill>, direction: Direction,
                                noFill: Finalization): Finalization
  {
    match retained
    case None => noFill
    case Some(Priced(shares, _)) => if shares > 0.0 then Complete(shares, direction) else noFill
    case Some(Unpriced(shares)) => if shares > 0.0 then UnpricedFill(shares) else noFill
  }

  function TerminalFinalization(order: Order): Option<Finalization>
  {
    match order
    case Filled(terms, shares) => Some(Complete(shares, terms.direction))
    case Cancelled(terms, _, retained) => Some(ClassifyTerminalFill(retained, terms.direction, NoFillCancelled))
    case Failed(terms, _, retained, reachedBroker) =>
      if reachedBroker then Some(ClassifyTerminalFill(retained, terms.direction, NoFillFailed)) else Some(NoFillFailed)
    case _ => None
  }

  function CommandForFinalization(finalization: Finalization, id: OrderId): Option<P.Command>
  {
    match finalization
    case Complete(shares, direction) => Some(P.CompleteOffChainOrder(id, shares, direction))
    case NoFillCancelled => Some(P.CancelOffChainOrder(id))
    case NoFillFailed => Some(P.FailOffChainOrder(id))
    case UnpricedFill(_) => None
  }

  /** The shared mapping: what the sweep and both recovery paths send for an order. */
  function PositionCommandFor(order: Order, id: OrderId): Option<P.Command>
  {
    match TerminalFinalization(order)
    case None => None
    case Some(finalization) => CommandForFinalization(finalization, id)
  }

  /** A fill the broker never priced keeps the claim until an operator steps in. */
  predicate HoldsUnpricedFill(order: Order)
  {
    TerminalFinalization(order).Some? && TerminalFinalization(order).value.UnpricedFill?
  }

  function SignedFill(order: Order): real
  {
    match TerminalFinalization(order)
    case Some(Complete(shares, direction)) => Signed(direction, shares)
    case _ => 0.0
  }

  /** What the post-placement dispatch sends; it never looks at a failed order's fill. */
  function DispatchCommand(loaded: Option<Order>, id: OrderId): Option<P.Command>
  {
    match loaded
    case None => Some(P.FailOffChainOrder(id))
    case Some(Failed(_, _, _, _)) => Some(P.FailOffChainOrder(id))
    case Some(Cancelled(terms, shares, retained)) => PositionCommandFor(Cancelled(terms, shares, retained), id)
    case _ => None
  }

  /** The position command the rejection job picks from the state it loaded before
      marking the order failed; None when it stops early. */
  function RejectionCommand(order: Order, id: OrderId): Option<P.Command>
  {
    match order
    case PartiallyFilled(terms, _, _, filled, _) =>
      Some(if filled > 0.0 then P.CompleteOffChainOrder(id, filled, terms.direction) else P.FailOffChainOrder(id))
    case Cancelling(terms, _, _, Some(Priced(filled, _))) =>
      Some(if filled > 0.0 then P.CompleteOffChainOrder(id, filled, terms.direction) else P.FailOffChainOrder(id))
    case Failed(terms, _, Some(Priced(filled, _)), true) =>
      Some(if filled > 0.0 then P.CompleteOffChainOrder(id, filled, terms.direction) else P.FailOffChainOrder(id))
    case Cancelled(_, _, _) =>
      if HoldsUnpricedFill(order) then Some(P.FailOffChainOrder(id)) else PositionCommandFor(order, id)
    case Filled(_, _) => None
    case _ => Some(P.FailOffChainOrder(id))
  }

  /** The order the rejection job leaves behind. */
  function Rejection(order: Order): Order { After(order, MarkFailed) }

  /** The fill job's command, built from the state it loaded before completing the order. */
  function ReconcileFillCommand(order: Order, id: OrderId): Option<P.Command>
  {
    if order.Filled? || order.Live()
    then Some(P.CompleteOffChainOrder(id, order.shares, order.terms.direction))
    else None
  }

  /** The priced fill on record that a finalization would book. */
  function PricedFill(order: Order): real
  {
    match RetainedBy(order)
    case Some(Priced(shares, _)) => if shares > 0.0 && !(order.Failed? && !order.reachedBroker) then shares else 0.0
    case _ => 0.0
  }

  /** The rejection job decides from the state it loaded, and other jobs may write to the
      order before its own write lands. It sends what the shared mapping sends for the
      failed order exactly when no priced fill was recorded in between and none lacks a
      price. */
  lemma RejectionAgreesIff(loaded: Order, commands: seq<Command>, id: OrderId)
    requires !loaded.Filled?
    requires var current := RunFrom(loaded, commands); !current.Filled? && (!loaded.Terminal() ==> !current.Cancelled?)
    ensures var ended := Rejection(RunFrom(loaded, commands));
            RejectionCommand(loaded, id) == PositionCommandFor(ended, id)
            <==> PricedFill(loaded) == PricedFill(ended) && !HoldsUnpricedFill(ended)
  {
    EveryRunKeeps(loaded, commands);
    var current := RunFrom(loaded, commands);
    if !current.Terminal() {
      ApplyOne(Some(current), FailedEvent);
    }
  }

  /** The fill job is never stale: whatever other jobs write between its load and its own
      write, it sends what the shared mapping sends for the filled order. */
  lemma FillJobAgrees(loaded: Order, commands: seq<Command>, id: OrderId)
    requires loaded.Live() || loaded.Filled?
    requires var current := RunFrom(loaded, commands); current.Live() || current.Filled?
    ensures var current := RunFrom(loaded, commands);
            ReconcileFillCommand(loaded, id) ==
            PositionCommandFor(if current.Filled? then current else After(current, CompleteFill), id)
  {
    EveryRunKeeps(loaded, commands);
    var current := RunFrom(loaded, commands);
    if current.Live() {
      ApplyOne(Some(current), FilledEvent);
    }
  }

  /** The dispatch after a placement sends something else than the shared mapping exactly
      when the order failed at the broker with a positive fill on record. */
  lemma DispatchDropsFillIff(order: Order, id: OrderId)
    ensures DispatchCommand(Some(order), id).Some? && DispatchCommand(Some(order), id) != PositionCommandFor(order, id)
       <==> order.Failed? && order.reachedBroker && RetainedShares(order) > 0.0
  {
  }
}
