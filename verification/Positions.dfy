/**
 The Position aggregate: net exposure of one symbol, the claim of its pending
 hedge order, and the two guards that keep an onchain fill from being applied twice.
 */
module Positions {
  import opened Common

  type PositiveShares = shares: real | shares > 0.0 witness 1.0

  datatype Threshold = SharesThreshold(minimum: real) | DollarThreshold(minimum: real)

  datatype Position = Position(
    net: real,
    accumulatedLong: real,
    accumulatedShort: real,
    pendingOrder: Option<OrderId>,
    failureAnchor: Option<OrderId>,
    lastAcknowledged: Option<TradeId>,
    pendingAcknowledged: set<TradeId>,
    threshold: Threshold,
    lastPrice: Option<real>)

  datatype Event =
    | Initialized(threshold: Threshold)
    | OnChainOrderFilled(trade: TradeId, amount: real, direction: Direction, price: real)
    | OnChainFillApplied(trade: TradeId)
    | OnChainFillSettled(trade: TradeId)
    | OffChainOrderPlaced(order: OrderId, requested: PositiveShares, direction: Direction)
    | OffChainOrderFilled(order: OrderId, sharesFilled: PositiveShares, direction: Direction)
    | OffChainOrderFailed(order: OrderId)
    | OffChainOrderCancelled(order: OrderId)
    | ThresholdUpdated(newThreshold: Threshold)
    | ManualPositionAdjusted(previousNet: real, targetNet: real, newPrice: Option<real>)

  datatype Command =
    | AcknowledgeOnChainFill(initial: Threshold, trade: TradeId, amount: real, direction: Direction, price: real)
    | SettleOnChainFill(trade: TradeId)
    | PlaceOffChainOrder(order: OrderId, requested: PositiveShares, direction: Direction)
    | CompleteOffChainOrder(order: OrderId, sharesFilled: PositiveShares, direction: Direction)
    | FailOffChainOrder(order: OrderId)
    | CancelOffChainOrder(order: OrderId)
    | UpdateThreshold(newThreshold: Threshold)
    | ManuallyAdjustPosition(initial: Threshold, targetNet: real, expectedNet: Option<real>, newPrice: Option<real>)

  datatype Error =
    | Uninitialized
    | DuplicateTrade(trade: TradeId)
    | PendingExecution(order: OrderId)
    | ThresholdNotMet
    | NoPendingExecution
    | OffchainOrderIdMismatch(expected: OrderId, actual: OrderId)
    | ManualAdjustmentBlocked(order: OrderId)
    | ManualAdjustmentStateChanged
    | ManualAdjustmentInvalidPrice
    | ManualAdjustmentRequiresPrice

  function Originate(event: Event): Option<Position>
  {
    match event
    case Initialized(threshold) =>
      Some(Position(0.0, 0.0, 0.0, None, None, None, {}, threshold, None))
    case _ => None
  }

  function Evolve(p: Position, event: Event): Option<Position>
  {
    match event
    case OnChainOrderFilled(trade, amount, direction, price) =>
      var moved := p.(net := p.net + Signed(direction, amount),
                      lastAcknowledged := Some(trade),
                      lastPrice := Some(price));
      Some(match direction
           case Buy => moved.(accumulatedLong := p.accumulatedLong + amount)
           case Sell => moved.(accumulatedShort := p.accumulatedShort + amount))
    case OnChainFillApplied(trade) =>
      Some(p.(pendingAcknowledged := p.pendingAcknowledged + {trade}))
    case OnChainFillSettled(trade) =>
      Some(p.(pendingAcknowledged := p.pendingAcknowledged - {trade}))
    case OffChainOrderPlaced(order, _, _) =>
      if p.pendingOrder.Some? then None else Some(p.(pendingOrder := Some(order)))
    case OffChainOrderFilled(order, shares, direction) =>
      if p.pendingOrder != Some(order) then None
      else Some(p.(net := p.net + Signed(direction, shares), pendingOrder := None, failureAnchor := None))
    case OffChainOrderFailed(order) =>
      if p.pendingOrder != Some(order) then None
      else Some(p.(pendingOrder := None,
                   failureAnchor := if p.failureAnchor.Some? then p.failureAnchor else Some(order)))
    case OffChainOrderCancelled(order) =>
      if p.pendingOrder != Some(order) then None
      else Some(p.(pendingOrder := None, failureAnchor := None))
    case ThresholdUpdated(threshold) => Some(p.(threshold := threshold))
    case ManualPositionAdjusted(_, target, price) =>
      Some(p.(net := target,
              failureAnchor := None,
              lastPrice := if price.Some? then price else p.lastPrice))
    case Initialized(_) => None
  }

  function Abs(x: real): real { if x < 0.0 then -x else x }

  /** Whether net exposure has crossed the configured threshold. */
  predicate MeetsThreshold(p: Position)
  {
    match p.threshold
    case SharesThreshold(minimum) => Abs(p.net) >= minimum
    case DollarThreshold(minimum) => p.lastPrice.Some? && p.lastPrice.value * Abs(p.net) >= minimum
  }

  function ValidateManualAdjustment(expected: Option<real>, current: real, target: real,
                                    threshold: Threshold, existing: Option<real>, provided: Option<real>): Option<Error>
  {
    var price := if provided.Some? then provided else existing;
    if expected.Some? && expected.value != current then Some(ManualAdjustmentStateChanged)
    else if price.Some? && price.value <= 0.0 then Some(ManualAdjustmentInvalidPrice)
    else if threshold.DollarThreshold? && target != 0.0 && price.None? then Some(ManualAdjustmentRequiresPrice)
    else None
  }

  function AcknowledgeEvents(trade: TradeId, amount: real, direction: Direction, price: real): seq<Event>
  {
    [OnChainOrderFilled(trade, amount, direction, price), OnChainFillApplied(trade)]
  }

  function Initialize(command: Command): Result<seq<Event>, Error>
  {
    match command
    case AcknowledgeOnChainFill(threshold, trade, amount, direction, price) =>
      Ok([Initialized(threshold)] + AcknowledgeEvents(trade, amount, direction, price))
    case SettleOnChainFill(_) => Ok([])
    case ManuallyAdjustPosition(threshold, target, expected, price) =>
      (match ValidateManualAdjustment(expected, 0.0, target, threshold, None, price)
       case Some(error) => Err(error)
       case None => Ok([Initialized(threshold), ManualPositionAdjusted(0.0, target, price)]))
    case _ => Err(Uninitialized)
  }

  /** The claim a finalizing command must name. */
  function ValidatePendingExecution(p: Position, order: OrderId): Option<Error>
  {
    match p.pendingOrder
    case None => Some(NoPendingExecution)
    case Some(pending) => if pending != order then Some(OffchainOrderIdMismatch(pending, order)) else None
  }

  function Finalize(p: Position, order: OrderId, event: Event): Result<seq<Event>, Error>
  {
    match ValidatePendingExecution(p, order)
    case Some(error) => Err(error)
    case None => Ok([event])
  }

  function Transition(p: Position, command: Command): Result<seq<Event>, Error>
  {
    match command
    case AcknowledgeOnChainFill(_, trade, amount, direction, price) =>
      if p.lastAcknowledged == Some(trade) || trade in p.pendingAcknowledged then Err(DuplicateTrade(trade))
      else Ok(AcknowledgeEvents(trade, amount, direction, price))
    case SettleOnChainFill(trade) =>
      if trade in p.pendingAcknowledged then Ok([OnChainFillSettled(trade)]) else Ok([])
    case PlaceOffChainOrder(order, requested, direction) =>
      if p.pendingOrder.Some? then Err(PendingExecution(p.pendingOrder.value))
      else if !MeetsThreshold(p) then Err(ThresholdNotMet)
      else Ok([OffChainOrderPlaced(order, requested, direction)])
    case CompleteOffChainOrder(order, shares, direction) =>
      Finalize(p, order, OffChainOrderFilled(order, shares, direction))
    case FailOffChainOrder(order) => Finalize(p, order, OffChainOrderFailed(order))
    case CancelOffChainOrder(order) => Finalize(p, order, OffChainOrderCancelled(order))
    case UpdateThreshold(threshold) => Ok([ThresholdUpdated(threshold)])
    case ManuallyAdjustPosition(_, target, expected, price) =>
      if p.pendingOrder.Some? then Err(ManualAdjustmentBlocked(p.pendingOrder.value))
      else
        match ValidateManualAdjustment(expected, p.net, target, p.threshold, p.lastPrice, price)
        case Some(error) => Err(error)
        case None => Ok([ManualPositionAdjusted(p.net, target, price)])
  }

  function Handle(state: Option<Position>, command: Command): Result<seq<Event>, Error>
  {
    match state
    case None => Initialize(command)
    case Some(p) => Transition(p, command)
  }

  /** A position as the store holds it: its durable event log and the live state. */
  datatype Stream = Stream(log: seq<Event>, live: Option<Position>)

  datatype Loaded = Missing | Live(position: Position) | Broken

  function ApplyEvent(loaded: Loaded, event: Event): Loaded
  {
    var next := match loaded
      case Missing => Originate(event)
      case Live(p) => Evolve(p, event)
      case Broken => None;
    match next
    case None => Broken
    case Some(p) => Live(p)
  }

  function Replay(log: seq<Event>): Loaded
  {
    if log == [] then Missing else ApplyEvent(Replay(log[..|log| - 1]), log[|log| - 1])
  }

  function AsLoaded(state: Option<Position>): Loaded
  {
    match state
    case None => Missing
    case Some(p) => Live(p)
  }

  /** Appends a batch the way the store commits it: every event or none. */
  function Commit(stream: Stream, events: seq<Event>): Option<Stream>
    decreases |events|
  {
    if events == [] then Some(stream)
    else
      match ApplyEvent(AsLoaded(stream.live), events[0])
      case Live(p) => Commit(Stream(stream.log + [events[0]], Some(p)), events[1..])
      case _ => None
  }

  /** Sends one command; a rejection leaves no trace in the store. */
  function Send(stream: Stream, command: Command): Result<Stream, Error>
  {
    match Handle(stream.live, command)
    case Err(error) => Err(error)
    case Ok(events) =>
      match Commit(stream, events)
      case Some(next) => Ok(next)
      case None => Err(Uninitialized)
  }

  const EMPTY := Stream([], None)

  function After(stream: Stream, command: Command): Stream
  {
    match Send(stream, command)
    case Ok(next) => next
    case Err(_) => stream
  }

  /** The stream after any sequence of commands, from any callers, in any order. */
  function Run(commands: seq<Command>): Stream
  {
    if commands == [] then EMPTY
    else After(Run(commands[..|commands| - 1]), commands[|commands| - 1])
  }

  // ----- The ledger: what a log says about net, without replaying it -----

  function OnchainMove(event: Event): real
  {
    if event.OnChainOrderFilled? then Signed(event.direction, event.amount) else 0.0
  }

  function HedgeMove(event: Event): real
  {
    if event.OffChainOrderFilled? then Signed(event.direction, event.sharesFilled) else 0.0
  }

  function AdjustmentMove(event: Event): real
  {
    if event.ManualPositionAdjusted? then event.targetNet - event.previousNet else 0.0
  }

  function OnchainTotal(log: seq<Event>): real
  {
    if log == [] then 0.0 else OnchainTotal(log[..|log| - 1]) + OnchainMove(log[|log| - 1])
  }

  function HedgeTotal(log: seq<Event>): real
  {
    if log == [] then 0.0 else HedgeTotal(log[..|log| - 1]) + HedgeMove(log[|log| - 1])
  }

  function AdjustmentTotal(log: seq<Event>): real
  {
    if log == [] then 0.0 else AdjustmentTotal(log[..|log| - 1]) + AdjustmentMove(log[|log| - 1])
  }

  predicate LedgerBalances(p: Position, log: seq<Event>)
  {
    && p.net == OnchainTotal(log) + HedgeTotal(log) + AdjustmentTotal(log)
    && p.accumulatedLong - p.accumulatedShort == OnchainTotal(log)
  }

  // ----- The fill guards, read off the log -----

  predicate FilledAt(log: seq<Event>, i: int, trade: TradeId)
  {
    0 <= i < |log| && log[i].OnChainOrderFilled? && log[i].trade == trade
  }

  predicate SettledAt(log: seq<Event>, i: int, trade: TradeId)
  {
    0 <= i < |log| && log[i] == OnChainFillSettled(trade)
  }

  /** The durable fill guard: some event of the log already applied this trade. */
  predicate Filled(log: seq<Event>, trade: TradeId)
  {
    exists i :: 0 <= i < |log| && FilledAt(log, i, trade)
  }

  ghost predicate SettledBetween(log: seq<Event>, i: int, j: int, trade: TradeId)
  {
    exists k :: i < k < j && SettledAt(log, k, trade)
  }

  ghost predicate DisplacedBetween(log: seq<Event>, i: int, j: int, trade: TradeId)
  {
    exists k :: i < k < j && 0 <= k < |log| && log[k].OnChainOrderFilled? && log[k].trade != trade
  }

  /** The pending set holds exactly the applied trades not settled since, the slot
      holds the most recent fill, and a trade is applied again only after both guards
      have let go of it. */
  ghost predicate GuardsMatchLog(p: Position, log: seq<Event>)
  {
    && (forall t :: t in p.pendingAcknowledged ==> Filled(log, t))
    && (p.lastAcknowledged.Some? ==> Filled(log, p.lastAcknowledged.value))
    && (forall i, t :: FilledAt(log, i, t) ==> t in p.pendingAcknowledged || SettledBetween(log, i, |log|, t))
    && (forall i, t :: FilledAt(log, i, t) ==> p.lastAcknowledged == Some(t) || DisplacedBetween(log, i, |log|, t))
    && ReapplicationsAreGuarded(log)
  }

  ghost predicate ReapplicationsAreGuarded(log: seq<Event>)
  {
    forall i, j, t :: FilledAt(log, i, t) && FilledAt(log, j, t) && i < j ==>
      SettledBetween(log, i, j, t) && DisplacedBetween(log, i, j, t)
  }

  // ----- The claim, read off the log -----

  predicate OpensClaim(event: Event, order: OrderId)
  {
    event.OffChainOrderPlaced? && event.order == order
  }

  predicate ClosesClaim(event: Event, order: OrderId)
  {
    && (event.OffChainOrderFilled? || event.OffChainOrderFailed? || event.OffChainOrderCancelled?)
    && event.order == order
  }

  predicate ClosedAt(log: seq<Event>, i: int, order: OrderId)
  {
    0 <= i < |log| && ClosesClaim(log[i], order)
  }

  ghost predicate OpenedBetween(log: seq<Event>, i: int, j: int, order: OrderId)
  {
    exists k :: i < k < j && 0 <= k < |log| && OpensClaim(log[k], order)
  }

  /** Claims bracket: the claim is the last placement not closed since, and between two
      closings of one order there is a fresh placement of it. */
  ghost predicate ClaimsBracket(p: Position, log: seq<Event>)
  {
    && (p.pendingOrder.Some? ==> forall i :: ClosedAt(log, i, p.pendingOrder.value) ==>
                                     OpenedBetween(log, i, |log|, p.pendingOrder.value))
    && (forall i, o :: ClosedAt(log, i, o) ==> OpenedBetween(log, -1, i, o))
    && (forall i, j, o :: ClosedAt(log, i, o) && ClosedAt(log, j, o) && i < j ==> OpenedBetween(log, i, j, o))
    && (p.pendingOrder.Some? ==> OpenedBetween(log, -1, |log|, p.pendingOrder.value))
  }

  ghost predicate Sound(stream: Stream)
  {
    && Replay(stream.log) == AsLoaded(stream.live)
    && (stream.live.None? <==> stream.log == [])
    && (stream.live.Some? ==>
          && LedgerBalances(stream.live.value, stream.log)
          && GuardsMatchLog(stream.live.value, stream.log)
          && ClaimsBracket(stream.live.value, stream.log))
  }

  // ----- Proofs -----

  lemma {:induction false} Append(log: seq<Event>, event: Event)
    ensures Replay(log + [event]) == ApplyEvent(Replay(log), event)
    ensures OnchainTotal(log + [event]) == OnchainTotal(log) + OnchainMove(event)
    ensures HedgeTotal(log + [event]) == HedgeTotal(log) + HedgeMove(event)
    ensures AdjustmentTotal(log + [event]) == AdjustmentTotal(log) + AdjustmentMove(event)
  {
    assert (log + [event])[..|log|] == log;
  }

  /** Reading a longer log at an old index gives the old answer. */
  lemma Longer(log: seq<Event>, tail: seq<Event>)
    ensures forall i, t :: i < |log| ==> (FilledAt(log + tail, i, t) <==> FilledAt(log, i, t))
    ensures forall i, j, t :: SettledBetween(log, i, j, t) ==> SettledBetween(log + tail, i, j, t)
    ensures forall i, j, t :: DisplacedBetween(log, i, j, t) ==> DisplacedBetween(log + tail, i, j, t)
    ensures forall i, o :: i < |log| ==> (ClosedAt(log + tail, i, o) <==> ClosedAt(log, i, o))
    ensures forall i, j, o :: OpenedBetween(log, i, j, o) ==> OpenedBetween(log + tail, i, j, o)
  {
    var longer := log + tail;
    assert forall i :: 0 <= i < |log| ==> longer[i] == log[i];
    forall i, j, t | SettledBetween(log, i, j, t) ensures SettledBetween(longer, i, j, t) {
      var k :| i < k < j && SettledAt(log, k, t);
      assert SettledAt(longer, k, t);
    }
    forall i, j, t | DisplacedBetween(log, i, j, t) ensures DisplacedBetween(longer, i, j, t) {
      var k :| i < k < j && 0 <= k < |log| && log[k].OnChainOrderFilled? && log[k].trade != t;
      assert longer[k] == log[k];
    }
    forall i, j, o | OpenedBetween(log, i, j, o) ensures OpenedBetween(longer, i, j, o) {
      var k :| i < k < j && 0 <= k < |log| && OpensClaim(log[k], o);
      assert longer[k] == log[k];
    }
  }

  lemma LedgerStep(p: Position, log: seq<Event>, event: Event)
    requires LedgerBalances(p, log) && Evolve(p, event).Some?
    requires event.ManualPositionAdjusted? ==> event.previousNet == p.net
    ensures LedgerBalances(Evolve(p, event).value, log + [event])
  {
    Append(log, event);
  }

  /** Events that do not fill leave the guards in agreement with the log. */
  lemma GuardStep(p: Position, log: seq<Event>, event: Event)
    requires GuardsMatchLog(p, log) && Evolve(p, event).Some?
    requires !event.OnChainOrderFilled? && !event.OnChainFillApplied?
    ensures GuardsMatchLog(Evolve(p, event).value, log + [event])
  {
    var q, longer := Evolve(p, event).value, log + [event];
    Longer(log, [event]);
    assert longer[|log|] == event;
    assert forall i, t :: FilledAt(longer, i, t) ==> i < |log|;
    forall t | Filled(log, t) ensures Filled(longer, t) {
      var i :| FilledAt(log, i, t);
      assert FilledAt(longer, i, t);
    }
    forall i, t | FilledAt(longer, i, t)
      ensures t in q.pendingAcknowledged || SettledBetween(longer, i, |longer|, t)
      ensures q.lastAcknowledged == Some(t) || DisplacedBetween(longer, i, |longer|, t)
    {
      assert FilledAt(log, i, t);
      if t in p.pendingAcknowledged && t !in q.pendingAcknowledged {
        assert SettledAt(longer, |log|, t);
      } else if t !in p.pendingAcknowledged {
        WidenSettled(longer, i, |log|, |longer|, t);
      }
      if p.lastAcknowledged != Some(t) {
        WidenDisplaced(longer, i, |log|, |longer|, t);
      }
    }
  }

  lemma WidenSettled(log: seq<Event>, i: int, j: int, k: int, t: TradeId)
    requires SettledBetween(log, i, j, t) && j <= k
    ensures SettledBetween(log, i, k, t)
  {
  }

  lemma WidenDisplaced(log: seq<Event>, i: int, j: int, k: int, t: TradeId)
    requires DisplacedBetween(log, i, j, t) && j <= k
    ensures DisplacedBetween(log, i, k, t)
  {
    var m :| i < m < j && 0 <= m < |log| && log[m].OnChainOrderFilled? && log[m].trade != t;
  }

  /** An accepted acknowledgement: both guards were clear, so every earlier application
      of the trade has been settled and displaced. */
  lemma AcknowledgeStep(p: Position, log: seq<Event>, trade: TradeId, amount: real, direction: Direction, price: real)
    requires GuardsMatchLog(p, log)
    requires p.lastAcknowledged != Some(trade) && trade !in p.pendingAcknowledged
    ensures var events := AcknowledgeEvents(trade, amount, direction, price);
            var moved := Evolve(p, events[0]).value;
            GuardsMatchLog(Evolve(moved, events[1]).value, log + events)
  {
    var events := AcknowledgeEvents(trade, amount, direction, price);
    var q, longer := Evolve(Evolve(p, events[0]).value, events[1]).value, log + events;
    Longer(log, events);
    assert longer[|log|] == events[0] && longer[|log| + 1] == events[1];
    assert forall i, t :: FilledAt(longer, i, t) && i >= |log| ==> i == |log| && t == trade;
    assert FilledAt(longer, |log|, trade);
    forall t | Filled(log, t) ensures Filled(longer, t) {
      var i :| FilledAt(log, i, t);
      assert FilledAt(longer, i, t);
    }
    forall i, t | FilledAt(longer, i, t)
      ensures t in q.pendingAcknowledged || SettledBetween(longer, i, |longer|, t)
      ensures q.lastAcknowledged == Some(t) || DisplacedBetween(longer, i, |longer|, t)
    {
      if t != trade {
        assert FilledAt(log, i, t);
        if t !in p.pendingAcknowledged {
          WidenSettled(longer, i, |log|, |longer|, t);
        }
        assert longer[|log|].OnChainOrderFilled? && longer[|log|].trade != t;
      }
    }
    forall i, j, t | FilledAt(longer, i, t) && FilledAt(longer, j, t) && i < j
      ensures SettledBetween(longer, i, j, t) && DisplacedBetween(longer, i, j, t)
    {
      assert FilledAt(log, i, t);
      if j < |log| {
        assert FilledAt(log, j, t);
      }
    }
  }

  lemma ClaimStep(p: Position, log: seq<Event>, event: Event)
    requires ClaimsBracket(p, log) && Evolve(p, event).Some?
    ensures ClaimsBracket(Evolve(p, event).value, log + [event])
  {
    var q, longer := Evolve(p, event).value, log + [event];
    Longer(log, [event]);
    assert longer[|log|] == event;
    forall i, o | ClosedAt(longer, i, o) ensures OpenedBetween(longer, -1, i, o) {
      if i < |log| {
        assert ClosedAt(log, i, o);
      }
    }
    forall i, j, o | ClosedAt(longer, i, o) && ClosedAt(longer, j, o) && i < j
      ensures OpenedBetween(longer, i, j, o)
    {
      assert ClosedAt(log, i, o);
      if j < |log| {
        assert ClosedAt(log, j, o);
      }
    }
    if q.pendingOrder.Some? {
      var o := q.pendingOrder.value;
      if event.OffChainOrderPlaced? {
        assert OpensClaim(longer[|log|], o);
      } else {
        WidenOpened(longer, -1, |log|, |longer|, o);
        forall i | ClosedAt(longer, i, o) ensures OpenedBetween(longer, i, |longer|, o) {
          assert ClosedAt(log, i, o);
          WidenOpened(longer, i, |log|, |longer|, o);
        }
      }
    }
  }

  lemma WidenOpened(log: seq<Event>, i: int, j: int, k: int, o: OrderId)
    requires OpenedBetween(log, i, j, o) && j <= k
    ensures OpenedBetween(log, i, k, o)
  {
    var m :| i < m < j && 0 <= m < |log| && OpensClaim(log[m], o);
  }

  lemma SoundAfterEvent(stream: Stream, event: Event)
    requires Sound(stream) && stream.live.Some? && Evolve(stream.live.value, event).Some?
    requires !event.OnChainOrderFilled? && !event.OnChainFillApplied?
    requires event.ManualPositionAdjusted? ==> event.previousNet == stream.live.value.net
    ensures Sound(Stream(stream.log + [event], Evolve(stream.live.value, event)))
  {
    var p := stream.live.value;
    Append(stream.log, event);
    LedgerStep(p, stream.log, event);
    GuardStep(p, stream.log, event);
    ClaimStep(p, stream.log, event);
  }

  lemma SoundAfterAcknowledge(stream: Stream, trade: TradeId, amount: real, direction: Direction, price: real)
    requires Sound(stream) && stream.live.Some?
    requires stream.live.value.lastAcknowledged != Some(trade) && trade !in stream.live.value.pendingAcknowledged
    ensures var events := AcknowledgeEvents(trade, amount, direction, price);
            var moved := Evolve(stream.live.value, events[0]).value;
            Sound(Stream(stream.log + events, Evolve(moved, events[1])))
  {
    var p, log := stream.live.value, stream.log;
    var events := AcknowledgeEvents(trade, amount, direction, price);
    var moved := Evolve(p, events[0]).value;
    assert log + events == (log + [events[0]]) + [events[1]];
    Append(log, events[0]);
    Append(log + [events[0]], events[1]);
    LedgerStep(p, log, events[0]);
    LedgerStep(moved, log + [events[0]], events[1]);
    ClaimStep(p, log, events[0]);
    ClaimStep(moved, log + [events[0]], events[1]);
    AcknowledgeStep(p, log, trade, amount, direction, price);
  }

  lemma SoundWhenInitialized(threshold: Threshold)
    ensures Sound(Stream([Initialized(threshold)], Originate(Initialized(threshold))))
  {
    Append([], Initialized(threshold));
    assert [] + [Initialized(threshold)] == [Initialized(threshold)];
  }

  /** What an accepted acknowledgement leaves in the store. */
  function Acknowledged(stream: Stream, trade: TradeId, amount: real, direction: Direction, price: real): Stream
    requires stream.live.Some?
  {
    var events := AcknowledgeEvents(trade, amount, direction, price);
    var moved := Evolve(stream.live.value, events[0]).value;
    Stream(stream.log + events, Evolve(moved, events[1]))
  }

  lemma CommitAcknowledgement(stream: Stream, trade: TradeId, amount: real, direction: Direction, price: real)
    requires stream.live.Some?
    ensures Commit(stream, AcknowledgeEvents(trade, amount, direction, price))
         == Some(Acknowledged(stream, trade, amount, direction, price))
  {
    var events := AcknowledgeEvents(trade, amount, direction, price);
    var moved := Evolve(stream.live.value, events[0]).value;
    var middle := Stream(stream.log + [events[0]], Some(moved));
    assert events[1..] == [events[1]];
    assert Commit(stream, events) == Commit(middle, [events[1]]);
    assert [events[1]][1..] == [];
    assert stream.log + events == middle.log + [events[1]];
  }

  lemma CommitEvent(stream: Stream, event: Event)
    requires stream.live.Some? && Evolve(stream.live.value, event).Some?
    ensures Commit(stream, [event]) == Some(Stream(stream.log + [event], Evolve(stream.live.value, event)))
  {
    assert [event][1..] == [];
  }

  lemma CommitFirst(event: Event, rest: seq<Event>)
    requires Originate(event).Some?
    ensures Commit(EMPTY, [event] + rest) == Commit(Stream([event], Originate(event)), rest)
  {
    assert ([event] + rest)[1..] == rest;
    assert [] + [event] == [event];
  }

  /** The first command a symbol ever sees. */
  lemma FirstSendIsSound(command: Command)
    ensures Send(EMPTY, command).Ok? <==> Initialize(command).Ok?
    ensures Sound(After(EMPTY, command))
  {
    match command
    case AcknowledgeOnChainFill(threshold, trade, amount, direction, price) =>
      var created := Stream([Initialized(threshold)], Originate(Initialized(threshold)));
      SoundWhenInitialized(threshold);
      CommitFirst(Initialized(threshold), AcknowledgeEvents(trade, amount, direction, price));
      CommitAcknowledgement(created, trade, amount, direction, price);
      SoundAfterAcknowledge(created, trade, amount, direction, price);
    case ManuallyAdjustPosition(threshold, target, expected, price) =>
      if ValidateManualAdjustment(expected, 0.0, target, threshold, None, price).None? {
        var created := Stream([Initialized(threshold)], Originate(Initialized(threshold)));
        var event := ManualPositionAdjusted(0.0, target, price);
        SoundWhenInitialized(threshold);
        assert [Initialized(threshold), event] == [Initialized(threshold)] + [event];
        CommitFirst(Initialized(threshold), [event]);
        CommitEvent(created, event);
        SoundAfterEvent(created, event);
      }
    case _ =>
  }

  /** One command keeps everything the log says about the position true, and an
      accepted command's events always apply. */
  lemma SendKeepsSound(stream: Stream, command: Command)
    requires Sound(stream)
    ensures Send(stream, command).Ok? <==> Handle(stream.live, command).Ok?
    ensures Sound(After(stream, command))
  {
    match stream.live
    case None =>
      assert stream == EMPTY;
      FirstSendIsSound(command);
    case Some(p) =>
      match Handle(stream.live, command)
      case Err(_) =>
      case Ok(events) =>
        if command.AcknowledgeOnChainFill? {
          CommitAcknowledgement(stream, command.trade, command.amount, command.direction, command.price);
          SoundAfterAcknowledge(stream, command.trade, command.amount, command.direction, command.price);
        } else if events != [] {
          assert events == [events[0]];
          CommitEvent(stream, events[0]);
          SoundAfterEvent(stream, events[0]);
        }
  }

  /** Over every sequence of commands the log replays to the live position; net is the
      sum of logged onchain fills, finalized hedges and manual adjustments; no fill is
      applied again before it has been settled and displaced; and claims bracket. */
  lemma {:induction false} EveryRunIsSound(commands: seq<Command>)
    ensures Sound(Run(commands))
  {
    if commands != [] {
      EveryRunIsSound(commands[..|commands| - 1]);
      SendKeepsSound(Run(commands[..|commands| - 1]), commands[|commands| - 1]);
    }
  }

  /** A stream some sequence of commands leaves behind. */
  ghost predicate Reached(stream: Stream)
  {
    exists commands :: Run(commands) == stream
  }

  lemma ReachedIsSound(stream: Stream)
    requires Reached(stream)
    ensures Sound(stream)
  {
    var commands :| Run(commands) == stream;
    EveryRunIsSound(commands);
  }

  lemma ReachedNew(stream: Stream)
    requires Reached(stream) && stream.live.None?
    ensures stream == EMPTY
  {
    ReachedIsSound(stream);
  }

  lemma ReachedAfter(stream: Stream, command: Command)
    requires Reached(stream)
    ensures Reached(After(stream, command))
  {
    var commands :| Run(commands) == stream;
    var longer := commands + [command];
    assert longer[..|commands|] == commands;
    assert Run(longer) == After(stream, command);
  }

  lemma EmptyIsReached()
    ensures Reached(EMPTY)
  {
    assert Run([]) == EMPTY;
  }

  // ----- What each family of commands does to the fills a log records -----

  function PendingIn(stream: Stream): set<TradeId>
  {
    if stream.live.Some? then stream.live.value.pendingAcknowledged else {}
  }

  predicate UniqueFills(log: seq<Event>)
  {
    forall i, j :: 0 <= i < j < |log| && log[i].OnChainOrderFilled? && log[j].OnChainOrderFilled? ==>
      log[i].trade != log[j].trade
  }

  /** Every logged fill carries what `fill` says about its trade. */
  ghost predicate FillsAgree(log: seq<Event>, fill: TradeId -> (real, Direction, real))
  {
    forall i :: 0 <= i < |log| && log[i].OnChainOrderFilled? ==>
      fill(log[i].trade) == (log[i].amount, log[i].direction, log[i].price)
  }

  lemma QuietTail(log: seq<Event>, event: Event, fill: TradeId -> (real, Direction, real))
    requires !event.OnChainOrderFilled?
    ensures forall x :: Filled(log + [event], x) <==> Filled(log, x)
    ensures UniqueFills(log + [event]) <==> UniqueFills(log)
    ensures FillsAgree(log + [event], fill) <==> FillsAgree(log, fill)
  {
    var longer := log + [event];
    assert longer[|log|] == event;
    assert forall i :: 0 <= i < |log| ==> longer[i] == log[i];
    forall x ensures Filled(longer, x) <==> Filled(log, x) {
      if Filled(log, x) {
        var i :| 0 <= i < |log| && FilledAt(log, i, x);
        assert FilledAt(longer, i, x);
      }
      if Filled(longer, x) {
        var i :| 0 <= i < |longer| && FilledAt(longer, i, x);
        assert FilledAt(log, i, x);
      }
    }
    if FillsAgree(longer, fill) {
      forall i | 0 <= i < |log| && log[i].OnChainOrderFilled?
        ensures fill(log[i].trade) == (log[i].amount, log[i].direction, log[i].price)
      {
        assert longer[i] == log[i];
      }
    }
  }

  lemma FillTail(log: seq<Event>, event: Event, fill: TradeId -> (real, Direction, real))
    requires event.OnChainOrderFilled?
    ensures forall x :: Filled(log + [event], x) <==> Filled(log, x) || x == event.trade
    ensures UniqueFills(log) ==> (UniqueFills(log + [event]) <==> !Filled(log, event.trade))
    ensures FillsAgree(log, fill) && fill(event.trade) == (event.amount, event.direction, event.price) ==>
        FillsAgree(log + [event], fill)
  {
    var longer := log + [event];
    assert longer[|log|] == event;
    assert forall i :: 0 <= i < |log| ==> longer[i] == log[i];
    assert FilledAt(longer, |log|, event.trade);
    forall x ensures Filled(longer, x) <==> Filled(log, x) || x == event.trade {
      if Filled(log, x) {
        var i :| 0 <= i < |log| && FilledAt(log, i, x);
        assert FilledAt(longer, i, x);
      }
      if Filled(longer, x) && x != event.trade {
        var i :| 0 <= i < |longer| && FilledAt(longer, i, x);
        assert FilledAt(log, i, x);
      }
    }
    if Filled(log, event.trade) {
      var i :| 0 <= i < |log| && FilledAt(log, i, event.trade);
      assert longer[i].trade == longer[|log|].trade;
    } else {
      forall i | 0 <= i < |log| && log[i].OnChainOrderFilled? ensures log[i].trade != event.trade {
        assert FilledAt(log, i, log[i].trade);
      }
    }
  }

  /** An acknowledgement either appends the fill or is a duplicate of one already
      logged; it is never rejected for any other reason. */
  lemma AcknowledgeEffect(stream: Stream, command: Command, fill: TradeId -> (real, Direction, real))
    requires Reached(stream) && command.AcknowledgeOnChainFill?
    ensures Guarded(stream, command.trade) ==> Filled(stream.log, command.trade)
    ensures var after := After(stream, command);
            var t := command.trade;
            && (Guarded(stream, t) <==> Send(stream, command) == Err(DuplicateTrade(t)))
            && (!Guarded(stream, t) <==> Send(stream, command).Ok?)
            && (forall x :: Filled(after.log, x) <==> Filled(stream.log, x) || x == t)
            && PendingIn(after) == PendingIn(stream) + (if Guarded(stream, t) then {} else {t})
            && (UniqueFills(stream.log) ==> (UniqueFills(after.log) <==> Guarded(stream, t) || !Filled(stream.log, t)))
            && (FillsAgree(stream.log, fill) && fill(t) == (command.amount, command.direction, command.price) ==>
                FillsAgree(after.log, fill))
  {
    var t := command.trade;
    ReachedIsSound(stream);
    if !Guarded(stream, t) {
      var created := Stream([Initialized(command.initial)], Originate(Initialized(command.initial)));
      var base := if stream.live.Some? then stream else created;
      var events := AcknowledgeEvents(t, command.amount, command.direction, command.price);
      if stream.live.None? {
        CommitFirst(Initialized(command.initial), events);
        assert created.log == stream.log + [Initialized(command.initial)];
        QuietTail(stream.log, Initialized(command.initial), fill);
      }
      CommitAcknowledgement(base, t, command.amount, command.direction, command.price);
      FillTail(base.log, events[0], fill);
      QuietTail(base.log + [events[0]], events[1], fill);
      assert After(stream, command).log == (base.log + [events[0]]) + [events[1]];
    }
  }

  /** Either guard of the position refuses the trade. */
  predicate Guarded(stream: Stream, trade: TradeId)
  {
    stream.live.Some? &&
    (stream.live.value.lastAcknowledged == Some(trade) || trade in stream.live.value.pendingAcknowledged)
  }

  /** Every other command leaves the logged fills alone; only a settle shrinks the
      pending set, and it always succeeds. */
  lemma OtherEffect(stream: Stream, command: Command, fill: TradeId -> (real, Direction, real))
    requires Reached(stream) && !command.AcknowledgeOnChainFill?
    ensures var after := After(stream, command);
            && (command.SettleOnChainFill? ==> Send(stream, command).Ok?)
            && (forall x :: Filled(after.log, x) <==> Filled(stream.log, x))
            && PendingIn(after) == PendingIn(stream) - (if command.SettleOnChainFill? then {command.trade} else {})
            && (UniqueFills(after.log) <==> UniqueFills(stream.log))
            && (FillsAgree(after.log, fill) <==> FillsAgree(stream.log, fill))
  {
    if stream.live.None? { ReachedNew(stream); }
    if stream.live.None? {
      OtherEffectOnNew(command, fill);
    } else if Handle(stream.live, command).Ok? {
      var events := Handle(stream.live, command).value;
      if events != [] {
        var event := events[0];
        assert events == [event];
        CommitEvent(stream, event);
        QuietTail(stream.log, event, fill);
      }
    }
  }

  lemma OtherEffectOnNew(command: Command, fill: TradeId -> (real, Direction, real))
    requires !command.AcknowledgeOnChainFill?
    ensures var after := After(EMPTY, command);
            && (command.SettleOnChainFill? ==> Send(EMPTY, command).Ok?)
            && (forall x :: !Filled(after.log, x))
            && PendingIn(after) == {}
            && UniqueFills(after.log) && FillsAgree(after.log, fill)
  {
    if command.ManuallyAdjustPosition? && Initialize(command).Ok? {
      var events := Initialize(command).value;
      assert events == [events[0]] + [events[1]];
      CommitFirst(events[0], [events[1]]);
      CommitEvent(Stream([events[0]], Originate(events[0])), events[1]);
    }
  }

  /** An accepted acknowledgement takes the last-acknowledged slot. */
  lemma SlotHoldsNewest(stream: Stream, command: Command)
    requires command.AcknowledgeOnChainFill? && Send(stream, command).Ok? && stream.live.Some?
    ensures After(stream, command).live.Some?
    ensures After(stream, command).live.value.lastAcknowledged == Some(command.trade)
  {
    CommitAcknowledgement(stream, command.trade, command.amount, command.direction, command.price);
  }

  // ----- What each family of commands does to the claim -----

  function ClaimOf(stream: Stream): Option<OrderId>
  {
    if stream.live.Some? then stream.live.value.pendingOrder else None
  }

  function AnchorOf(stream: Stream): Option<OrderId>
  {
    if stream.live.Some? then stream.live.value.failureAnchor else None
  }

  /** The broker-side idempotency key of a placement: the first failed attempt still
      unanswered, else the order itself. */
  function ClientKey(stream: Stream, order: OrderId): OrderId
  {
    if AnchorOf(stream).Some? then AnchorOf(stream).value else order
  }

  predicate ClosesOrder(command: Command, order: OrderId)
  {
    && (command.CompleteOffChainOrder? || command.FailOffChainOrder? || command.CancelOffChainOrder?)
    && command.order == order
  }

  /** A finalizing command is accepted exactly when the claim names its order; it then
      frees the claim and moves net by the fill it reports. A failure keeps the key of
      the failed placement alive for whatever is placed next; nothing else does. */
  lemma CloseEffect(stream: Stream, command: Command, order: OrderId)
    requires Reached(stream) && ClosesOrder(command, order)
    ensures var after := After(stream, command);
            && (Send(stream, command).Ok? <==> ClaimOf(stream) == Some(order))
            && (ClaimOf(stream) != Some(order) ==> after == stream)
            && (ClaimOf(stream) == Some(order) ==>
                  && ClaimOf(after).None?
                  && HedgeTotal(after.log) == HedgeTotal(stream.log) +
                       (if command.CompleteOffChainOrder? then Signed(command.direction, command.sharesFilled) else 0.0)
                  && AnchorOf(after) == (if command.FailOffChainOrder? then Some(ClientKey(stream, order)) else None))
  {
    if ClaimOf(stream) == Some(order) {
      var event := Handle(stream.live, command).value[0];
      assert Handle(stream.live, command).value == [event];
      CommitEvent(stream, event);
      Append(stream.log, event);
    }
  }

  /** A claim is accepted only on a free position past its threshold. */
  lemma ClaimEffect(stream: Stream, command: Command)
    requires Reached(stream) && command.PlaceOffChainOrder?
    ensures var after := After(stream, command);
            && (Send(stream, command).Ok? <==>
                  stream.live.Some? && ClaimOf(stream).None? && MeetsThreshold(stream.live.value))
            && (Send(stream, command).Ok? ==> ClaimOf(after) == Some(command.order))
            && AnchorOf(after) == AnchorOf(stream)
            && HedgeTotal(after.log) == HedgeTotal(stream.log)
  {
    if stream.live.None? { ReachedNew(stream); }
    if Handle(stream.live, command).Ok? {
      var event := OffChainOrderPlaced(command.order, command.requested, command.direction);
      CommitEvent(stream, event);
      Append(stream.log, event);
    }
  }

  /** Every other command leaves claim and hedge total alone; it can at most clear the
      failure anchor, and not while a claim is held. */
  lemma UnrelatedEffect(stream: Stream, command: Command)
    requires Reached(stream)
    requires !command.PlaceOffChainOrder? && !command.CompleteOffChainOrder?
    requires !command.FailOffChainOrder? && !command.CancelOffChainOrder?
    ensures var after := After(stream, command);
            && ClaimOf(after) == ClaimOf(stream)
            && HedgeTotal(after.log) == HedgeTotal(stream.log)
            && (AnchorOf(after) == AnchorOf(stream) || (ClaimOf(stream).None? && AnchorOf(after).None?))
  {
    if stream.live.None? { ReachedNew(stream); }
    if Handle(stream.live, command).Ok? {
      var events := Handle(stream.live, command).value;
      if stream.live.None? {
        UnrelatedEffectOnNew(command);
      } else if command.AcknowledgeOnChainFill? {
        CommitAcknowledgement(stream, command.trade, command.amount, command.direction, command.price);
        Append(stream.log, events[0]);
        Append(stream.log + [events[0]], events[1]);
        assert After(stream, command).log == (stream.log + [events[0]]) + [events[1]];
      } else if events != [] {
        assert events == [events[0]];
        CommitEvent(stream, events[0]);
        Append(stream.log, events[0]);
      }
    }
  }

  lemma UnrelatedEffectOnNew(command: Command)
    requires Initialize(command).Ok?
    ensures ClaimOf(After(EMPTY, command)).None? && HedgeTotal(After(EMPTY, command).log) == 0.0
    ensures command.AcknowledgeOnChainFill? || command.SettleOnChainFill? || command.ManuallyAdjustPosition? ==>
              AnchorOf(After(EMPTY, command)).None?
  {
    var events := Initialize(command).value;
    if command.AcknowledgeOnChainFill? {
      var created := Stream([events[0]], Originate(events[0]));
      assert events == [events[0]] + AcknowledgeEvents(command.trade, command.amount, command.direction, command.price);
      CommitFirst(events[0], events[1..]);
      CommitAcknowledgement(created, command.trade, command.amount, command.direction, command.price);
      assert After(EMPTY, command).log == ([] + [events[0]] + [events[1]]) + [events[2]];
      Append([], events[0]);
      Append([] + [events[0]], events[1]);
      Append([] + [events[0]] + [events[1]], events[2]);
    } else if command.ManuallyAdjustPosition? {
      assert events == [events[0]] + [events[1]];
      CommitFirst(events[0], [events[1]]);
      CommitEvent(Stream([events[0]], Originate(events[0])), events[1]);
      assert After(EMPTY, command).log == [] + [events[0]] + [events[1]];
      Append([], events[0]);
      Append([] + [events[0]], events[1]);
    }
  }
}
