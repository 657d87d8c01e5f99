/**
 The periodic position check in the form it runs: ordered passes that loop over every
 position and send commands changing orders and positions in place.
 */
module CheckPositions {
  import opened Common
  import P = Positions
  import O = OffchainOrders
  import H = HedgeClaims
  import L = OrderLifecycle
  import D = PositionDetails

  type Orders = map<OrderId, O.Order>

  /** What the outside world answers during one tick. */
  datatype World = World(
    session: Option<O.Session>,
    status: OrderId -> Option<O.BrokerState>,
    cancelReply: OrderId -> O.CancelReply,
    placeReply: OrderId -> H.BrokerReply)
  {
    function CancelOf(o: OrderId): O.Command { O.CancelOrder(status(o), cancelReply(o)) }

    function OutcomeOf(o: OrderId): O.Command { H.ReplyCommand(placeReply(o)) }
  }

  datatype Config = Config(executor: O.Executor, extendedHours: set<Symbol>)

  // ----- Per-position specifications of the passes -----

  /** The finalize sweep: a claim on an ended order is resolved by the shared mapping. */
  function Finalized(stream: P.Stream, orders: Orders): P.Stream
  {
    match P.ClaimOf(stream)
    case None => stream
    case Some(o) =>
      if o in orders && O.PositionCommandFor(orders[o], o).Some?
      then P.After(stream, O.PositionCommandFor(orders[o], o).value)
      else stream
  }

  /** A live extended-hours order of the configured executor. */
  predicate LiveExtended(order: O.Order, executor: O.Executor)
  {
    (order.Submitted? || order.PartiallyFilled?) && order.session == O.Extended && order.terms.executor == executor
  }

  predicate Accepts(order: O.Order, command: O.Command) { O.Send(Some(order), command).Some? }

  /** The cancel pass on one claimed order: only a live extended-hours one is asked. */
  function CancelAsked(order: O.Order, command: O.Command, executor: O.Executor): O.Order
  {
    if LiveExtended(order, executor) then O.After(order, command) else order
  }

  /** The orders claimed by listed symbols whose extended-hours trading is enabled. */
  ghost function Swept(symbols: seq<Symbol>, positions: map<Symbol, P.Stream>, config: Config): iset<OrderId>
  {
    iset s | s in symbols && s in config.extendedHours && s in positions && P.ClaimOf(positions[s]).Some? ::
        P.ClaimOf(positions[s]).value
  }

  function EnabledClaim(positions: map<Symbol, P.Stream>, symbol: Symbol, config: Config): Option<OrderId>
    requires symbol in positions
  {
    if symbol in config.extendedHours then P.ClaimOf(positions[symbol]) else None
  }

  /** The cancel pass as a whole. */
  ghost predicate CancelsAsked(before: Orders, after: Orders, swept: iset<OrderId>,
                               config: Config, world: World)
  {
    && after.Keys == before.Keys
    && forall o :: o in before ==>
         after[o] == if o in swept then CancelAsked(before[o], world.CancelOf(o), config.executor) else before[o]
  }

  /** Recovery on one claimed order: a pending one is offered to the broker again. */
  function RecoveredOrder(order: O.Order, o: OrderId, world: World): O.Order
  {
    if order.Pending? then O.After(order, world.OutcomeOf(o)) else order
  }

  /** Recovery on one position: a claim on a missing order fails, one on an ended order is
      resolved by the shared mapping, one on a pending order fails if the broker refuses. */
  function RecoveredStream(stream: P.Stream, orders: Orders, world: World): P.Stream
  {
    match P.ClaimOf(stream)
    case None => stream
    case Some(o) =>
      if o !in orders then P.After(stream, P.FailOffChainOrder(o))
      else
        match O.PositionCommandFor(RecoveredOrder(orders[o], o, world), o)
        case Some(command) => P.After(stream, command)
        case None => stream
  }

  /** Recovery, state by state of the claimed order. */
  lemma RecoveryByState(stream: P.Stream, orders: Orders, world: World)
    requires P.Reached(stream)
    ensures match P.ClaimOf(stream)
            case None => RecoveredStream(stream, orders, world) == stream
            case Some(o) =>
              if o !in orders then P.ClaimOf(RecoveredStream(stream, orders, world)) == None
              else if orders[o].Pending? then
                match world.placeReply(o)
                case Accepted(shares, session) =>
                  && RecoveredOrder(orders[o], o, world) == O.Submitted(orders[o].terms, shares, session)
                  && RecoveredStream(stream, orders, world) == stream
                case Refused =>
                  && RecoveredOrder(orders[o], o, world) == O.Failed(orders[o].terms, orders[o].shares, None, false)
                  && P.ClaimOf(RecoveredStream(stream, orders, world)) == None
              else
                && RecoveredOrder(orders[o], o, world) == orders[o]
                && if (orders[o].Filled? || orders[o].Failed? || orders[o].Cancelled?)
                      && !O.HoldsUnpricedFill(orders[o])
                   then P.ClaimOf(RecoveredStream(stream, orders, world)) == None
                   else RecoveredStream(stream, orders, world) == stream
  {
    if P.ClaimOf(stream).Some? {
      var o := P.ClaimOf(stream).value;
      if o !in orders {
        P.CloseEffect(stream, P.FailOffChainOrder(o), o);
      } else {
        if orders[o].Pending? { AnswerSettles(orders[o], world, o); }
        var recovered := RecoveredOrder(orders[o], o, world);
        L.Finalizations(recovered, o);
        L.Worth(recovered);
        if O.PositionCommandFor(recovered, o).Some? {
          P.CloseEffect(stream, O.PositionCommandFor(recovered, o).value, o);
        }
      }
    }
  }

  /** The orders claimed by listed symbols. */
  ghost function Claimed(symbols: seq<Symbol>, positions: map<Symbol, P.Stream>): iset<OrderId>
  {
    iset s | s in symbols && s in positions && P.ClaimOf(positions[s]).Some? :: P.ClaimOf(positions[s]).value
  }

  /** The recovery pass as a whole. */
  ghost predicate PassRecovers(before: Orders, after: Orders, claimed: iset<OrderId>, world: World)
  {
    && after.Keys == before.Keys
    && forall o :: o in before ==> after[o] == if o in claimed then RecoveredOrder(before[o], o, world) else before[o]
  }

  function RecoveredOne(orders: Orders, claim: Option<OrderId>, world: World): Orders
  {
    if claim.Some? && claim.value in orders
    then orders[claim.value := RecoveredOrder(orders[claim.value], claim.value, world)]
    else orders
  }

  /** A position agrees with the orders: no claim is left on a missing order, on a pending
      one, or on an ended one that could be recorded. */
  predicate Converged(stream: P.Stream, orders: Orders)
  {
    P.ClaimOf(stream).None? ||
    (P.ClaimOf(stream).value in orders &&
     (orders[P.ClaimOf(stream).value].Live() || O.HoldsUnpricedFill(orders[P.ClaimOf(stream).value])))
  }

  /** The books of one position across a pass: the claim and the hedge total stand, or the
      claim was released and its order's recorded fill, and nothing else, was added. */
  predicate Balanced(before: P.Stream, after: P.Stream, orders: Orders)
  {
    if P.ClaimOf(after) == P.ClaimOf(before) then P.HedgeTotal(after.log) == P.HedgeTotal(before.log)
    else
      && P.ClaimOf(before).Some? && P.ClaimOf(after).None?
      && (P.ClaimOf(before).value in orders ==> H.Recordable(orders[P.ClaimOf(before).value]))
      && P.HedgeTotal(after.log) == P.HedgeTotal(before.log) + H.Owed(orders, P.ClaimOf(before).value)
  }

  lemma CloseBalances(stream: P.Stream, orders: Orders, o: OrderId, command: P.Command)
    requires P.Reached(stream) && P.ClaimOf(stream) == Some(o) && P.ClosesOrder(command, o)
    requires o in orders ==> O.PositionCommandFor(orders[o], o) == Some(command)
    requires o !in orders ==> command == P.FailOffChainOrder(o)
    ensures var after := P.After(stream, command);
            P.Reached(after) && P.ClaimOf(after).None? && Balanced(stream, after, orders)
  {
    P.CloseEffect(stream, command, o);
    P.ReachedAfter(stream, command);
  }

  lemma FinalizedBalances(stream: P.Stream, orders: Orders)
    requires P.Reached(stream)
    ensures P.Reached(Finalized(stream, orders)) && Balanced(stream, Finalized(stream, orders), orders)
  {
    var claim := P.ClaimOf(stream);
    if claim.Some? && claim.value in orders && O.PositionCommandFor(orders[claim.value], claim.value).Some? {
      CloseBalances(stream, orders, claim.value, O.PositionCommandFor(orders[claim.value], claim.value).value);
    }
  }

  /** The sweep frees a position exactly from an order that ended with every fill priced. */
  lemma FinalizedReleases(stream: P.Stream, orders: Orders, o: OrderId)
    requires P.Reached(stream) && P.ClaimOf(stream) == Some(o) && o in orders
    ensures if (orders[o].Filled? || orders[o].Failed? || orders[o].Cancelled?) && !O.HoldsUnpricedFill(orders[o])
            then P.ClaimOf(Finalized(stream, orders)) == None else Finalized(stream, orders) == stream
  {
    L.Finalizations(orders[o], o);
    L.Worth(orders[o]);
    if O.PositionCommandFor(orders[o], o).Some? {
      P.CloseEffect(stream, O.PositionCommandFor(orders[o], o).value, o);
    }
  }

  /** Every order is as before, or a pending one that the broker has now answered. */
  predicate OnlyPendingMoved(before: Orders, after: Orders)
  {
    && after.Keys == before.Keys
    && forall o :: o in before && after[o] != before[o] ==> before[o].Pending? && !after[o].Pending?
  }

  lemma PassMovesPending(before: Orders, after: Orders, claimed: iset<OrderId>, world: World)
    requires PassRecovers(before, after, claimed, world)
    ensures OnlyPendingMoved(before, after)
  {
    forall o | o in before && before[o].Pending? ensures !RecoveredOrder(before[o], o, world).Pending? {
      AnswerSettles(before[o], world, o);
    }
  }

  /** What recovery makes of a position is settled, and only the released fill was booked. */
  lemma RecoveredSettles(stream: P.Stream, before: Orders, after: Orders, claimed: iset<OrderId>, world: World)
    requires P.Reached(stream) && PassRecovers(before, after, claimed, world)
    requires P.ClaimOf(stream).Some? ==> P.ClaimOf(stream).value in claimed
    ensures var recovered := RecoveredStream(stream, before, world);
            P.Reached(recovered) && Converged(recovered, after) && Balanced(stream, recovered, after)
  {
    if P.ClaimOf(stream).Some? {
      var o := P.ClaimOf(stream).value;
      if o !in before {
        CloseBalances(stream, after, o, P.FailOffChainOrder(o));
      } else {
        if before[o].Pending? { AnswerSettles(before[o], world, o); }
        var command := O.PositionCommandFor(after[o], o);
        if command.Some? { CloseBalances(stream, after, o, command.value); }
      }
    }
  }

  /** Recovering an order twice is recovering it once, so positions may come in any order
      and be recovered from the orders as they stand when their turn comes. */
  lemma RecoverOneMore(before: Orders, current: Orders, after: Orders, claimed: iset<OrderId>,
                       stream: P.Stream, world: World)
    requires PassRecovers(before, current, claimed, world)
    requires after == RecoveredOne(current, P.ClaimOf(stream), world)
    ensures RecoveredStream(stream, current, world) == RecoveredStream(stream, before, world)
    ensures PassRecovers(before, after,
                         if P.ClaimOf(stream).Some? then claimed + iset{P.ClaimOf(stream).value} else claimed, world)
  {
    var claim := P.ClaimOf(stream);
    if claim.Some? && claim.value in before && before[claim.value].Pending? {
      AnswerSettles(before[claim.value], world, claim.value);
    }
  }

  predicate ClaimAccepted(positions: map<Symbol, P.Stream>, symbol: Symbol, claim: P.Command)
  {
    symbol in positions && P.Send(positions[symbol], claim).Ok?
  }

  predicate ClaimRefused(positions: map<Symbol, P.Stream>, symbol: Symbol, claim: P.Command)
  {
    symbol in positions && P.Send(positions[symbol], claim).Err?
  }

  /** The claimed order, if it is with the broker. */
  function LiveClaim(stream: P.Stream, orders: Orders): seq<OrderId>
  {
    if P.ClaimOf(stream).Some? && P.ClaimOf(stream).value in orders && orders[P.ClaimOf(stream).value].Live()
    then [P.ClaimOf(stream).value] else []
  }

  /** A completed placement: hedge books untouched, and either the order is submitted and
      claimed, or it failed and its key passes on to whatever is placed next. */
  predicate PlacedOnce(before: P.Stream, after: P.Stream, o: OrderId, order: O.Order)
  {
    && P.HedgeTotal(after.log) == P.HedgeTotal(before.log)
    && (order.Submitted? || order.Failed?)
    && P.ClaimOf(after) == (if order.Submitted? then Some(o) else None)
    && P.AnchorOf(after) == (if order.Submitted? then P.AnchorOf(before) else Some(P.ClientKey(before, o)))
  }

  /** Some position claims the call's order, and the call carries that position's key. */
  ghost predicate KeyedByClaim(positions: map<Symbol, P.Stream>, call: H.Call)
  {
    exists s ::
      && s in positions && P.ClaimOf(positions[s]) == Some(call.order)
      && call.key == P.ClientKey(positions[s], call.order)
  }

  function ClaimFor(o: OrderId, requested: P.PositiveShares, terms: O.Terms): P.Command
  {
    P.PlaceOffChainOrder(o, requested, terms.direction)
  }

  /** A new order after its only offer to the broker. */
  function Offered(o: OrderId, requested: P.PositiveShares, terms: O.Terms, session: O.Session, world: World): O.Order
  {
    O.After(O.Pending(terms, requested, session), world.OutcomeOf(o))
  }

  /** A placement once the broker answered: a refused order fails its claim. */
  function Dispatched(stream: P.Stream, order: O.Order, o: OrderId): P.Stream
  {
    if order.Failed? then P.After(stream, P.FailOffChainOrder(o)) else stream
  }

  /** What a placement writes to the log of its position. */
  lemma PlacementIsLogged(stream: P.Stream, o: OrderId, requested: P.PositiveShares, terms: O.Terms,
                          session: O.Session, world: World)
    requires P.Reached(stream) && P.Send(stream, ClaimFor(o, requested, terms)).Ok?
    ensures var claimed := P.After(stream, ClaimFor(o, requested, terms));
            Dispatched(claimed, Offered(o, requested, terms, session, world), o).log ==
            stream.log + match world.placeReply(o)
                         case Accepted(_, _) => [P.OffChainOrderPlaced(o, requested, terms.direction)]
                         case Refused =>
                           [P.OffChainOrderPlaced(o, requested, terms.direction), P.OffChainOrderFailed(o)]
  {
    var claimed := P.After(stream, ClaimFor(o, requested, terms));
    P.ClaimEffect(stream, ClaimFor(o, requested, terms));
    D.ClaimIsLogged(stream, o, requested, terms.direction);
    AnswerSettles(O.Pending(terms, requested, session), world, o);
    if world.placeReply(o).Refused? {
      D.FailureIsLogged(claimed, o);
    }
  }

  /** The broker call recovery makes for a position, under that position's key. */
  function RecoveryCall(stream: P.Stream, orders: Orders): seq<H.Call>
  {
    if P.ClaimOf(stream).Some? && P.ClaimOf(stream).value in orders && orders[P.ClaimOf(stream).value].Pending?
    then [H.Call(P.ClaimOf(stream).value, P.ClientKey(stream, P.ClaimOf(stream).value))] else []
  }

  ghost predicate AllKeyed(positions: map<Symbol, P.Stream>, made: seq<H.Call>)
  {
    forall call :: call in made ==> KeyedByClaim(positions, call)
  }

  lemma KeyedOneMore(positions: map<Symbol, P.Stream>, made: seq<H.Call>, symbol: Symbol, orders: Orders)
    requires AllKeyed(positions, made) && symbol in positions
    ensures AllKeyed(positions, made + RecoveryCall(positions[symbol], orders))
  {
  }

  lemma RecoveredIsReached(stream: P.Stream, orders: Orders, world: World)
    requires P.Reached(stream)
    ensures P.Reached(RecoveredStream(stream, orders, world))
  {
    var claim := P.ClaimOf(stream);
    if claim.Some? {
      if claim.value !in orders {
        P.ReachedAfter(stream, P.FailOffChainOrder(claim.value));
      } else {
        var command := O.PositionCommandFor(RecoveredOrder(orders[claim.value], claim.value, world), claim.value);
        if command.Some? { P.ReachedAfter(stream, command.value); }
      }
    }
  }

  /** Recovery part-way: the visited positions are recovered, the others as they were. */
  ghost predicate Recovering(start: map<Symbol, P.Stream>, before: Orders,
                             now: map<Symbol, P.Stream>, after: Orders, visited: seq<Symbol>, world: World)
  {
    && now.Keys == start.Keys && PassRecovers(before, after, Claimed(visited, start), world)
    && forall s :: s in start ==> now[s] == if s in visited then RecoveredStream(start[s], before, world) else start[s]
  }

  lemma RecoverNext(start: map<Symbol, P.Stream>, before: Orders, held: map<Symbol, P.Stream>, current: Orders,
                    now: map<Symbol, P.Stream>, after: Orders, visited: seq<Symbol>, symbol: Symbol, world: World)
    requires Recovering(start, before, held, current, visited, world) && symbol in start && symbol !in visited
    requires now == held[symbol := RecoveredStream(held[symbol], current, world)]
    requires after == RecoveredOne(current, P.ClaimOf(held[symbol]), world)
    ensures Recovering(start, before, now, after, visited + [symbol], world)
  {
    ClaimedGrows(start, visited, symbol);
    RecoverOneMore(before, current, after, Claimed(visited, start), start[symbol], world);
  }

  lemma ClaimedGrows(positions: map<Symbol, P.Stream>, visited: seq<Symbol>, symbol: Symbol)
    requires symbol in positions
    ensures Claimed(visited + [symbol], positions) == Claimed(visited, positions) +
              (if P.ClaimOf(positions[symbol]).Some? then iset{P.ClaimOf(positions[symbol]).value} else iset{})
  {
  }

  /** The next item of a list without repeats has not been visited yet. */
  lemma FreshNext<T>(items: seq<T>, i: nat)
    requires i < |items| && Distinct(items)
    ensures items[i] !in items[..i] && items[..i + 1] == items[..i] + [items[i]]
  {
  }

  class HedgeDesk {
    var positions: map<Symbol, P.Stream>
    var orders: Orders
    /** Cancel requests of the sweep that the order accepted, oldest first. */
    var cancelRequests: seq<OrderId>
    /** Broker placements, with the client key each one used. */
    var calls: seq<H.Call>
    /** Poll jobs enqueued for orders the broker is working on. */
    var polls: seq<OrderId>

    constructor ()
      ensures Valid() && positions == map[] && orders == map[] && cancelRequests == [] && calls == [] && polls == []
    {
      positions, orders, cancelRequests, calls, polls := map[], map[], [], [], [];
    }

    /** Positions are what commands make of them, and an order that accepted a cancel
        request is on its way out: no order is ever asked twice. */
    ghost predicate Valid()
      reads this
    {
      && (forall s :: s in positions ==> P.Reached(positions[s]))
      && (forall o :: o in cancelRequests ==> o in orders && O.Phase(orders[o]) >= 2)
      && Distinct(cancelRequests)
    }

    ghost predicate Lists(symbols: seq<Symbol>)
      reads this
    {
      Distinct(symbols) && forall s :: s in symbols <==> s in positions
    }

    /** Any command any other job sends to an order, at any time. */
    method SendOrderCommand(o: OrderId, command: O.Command)
      requires Valid()
      modifies this`orders
      ensures Valid()
      ensures orders == (if o in old(orders) then old(orders)[o := O.After(old(orders)[o], command)]
                         else if command.Place?
                         then old(orders)[o := O.Pending(command.terms, command.shares, command.session)]
                         else old(orders))
    {
      if o in orders {
        O.CommandKeeps(orders[o], command);
        orders := orders[o := O.After(orders[o], command)];
      } else if command.Place? {
        orders := orders[o := O.Pending(command.terms, command.shares, command.session)];
      }
    }

    /** Any command any other job sends to a position, at any time. */
    method SendPositionCommand(symbol: Symbol, command: P.Command)
      requires Valid()
      modifies this`positions
      ensures Valid()
      ensures positions == old(positions)[symbol :=
                P.After(if symbol in old(positions) then old(positions)[symbol] else P.EMPTY, command)]
    {
      var stream := if symbol in positions then positions[symbol] else P.EMPTY;
      P.EmptyIsReached();
      P.ReachedAfter(stream, command);
      positions := positions[symbol := P.After(stream, command)];
    }

    method FinalizeTerminalPendingPositions(symbols: seq<Symbol>)
      requires Valid() && Lists(symbols)
      modifies this`positions
      ensures Valid() && positions.Keys == old(positions).Keys
      ensures forall s :: s in positions ==> positions[s] == Finalized(old(positions)[s], orders)
      ensures forall s, o :: s in positions && P.ClaimOf(old(positions)[s]) == Some(o) && o in orders ==>
                if (orders[o].Filled? || orders[o].Failed? || orders[o].Cancelled?) && !O.HoldsUnpricedFill(orders[o])
                then P.ClaimOf(positions[s]) == None else positions[s] == old(positions)[s]
    {
      ghost var goal := map s | s in positions :: Finalized(positions[s], orders);
      for i := 0 to |symbols|
        invariant Valid() && positions.Keys == old(positions).Keys
        invariant forall s :: s in positions ==>
            positions[s] == if s in symbols[..i] then goal[s] else old(positions)[s]
      {
        FreshNext(symbols, i);
        FinalizePosition(symbols[i]);
      }
      assert symbols[..|symbols|] == symbols;
      forall s, o | s in positions && P.ClaimOf(old(positions)[s]) == Some(o) && o in orders
        ensures if (orders[o].Filled? || orders[o].Failed? || orders[o].Cancelled?) && !O.HoldsUnpricedFill(orders[o])
                then P.ClaimOf(positions[s]) == None else positions[s] == old(positions)[s]
      {
        FinalizedReleases(old(positions)[s], orders, o);
      }
    }

    method FinalizePosition(symbol: Symbol)
      requires Valid() && symbol in positions
      modifies this`positions
      ensures Valid()
      ensures positions == old(positions)[symbol := Finalized(old(positions)[symbol], orders)]
    {
      var stream := positions[symbol];
      FinalizedBalances(stream, orders);
      var claim := P.ClaimOf(stream);
      if claim.Some? && claim.value in orders {
        var command := O.PositionCommandFor(orders[claim.value], claim.value);
        if command.Some? {
          positions := positions[symbol := P.After(stream, command.value)];
        }
      }
    }

    /** Requests cancellation of every live extended-hours order claimed by an enabled
        symbol. An order that refuses keeps its state and is asked again next tick. */
    method RequestExtendedHoursCancellations(symbols: seq<Symbol>, config: Config, world: World)
      requires Valid() && Lists(symbols)
      modifies this`orders, this`cancelRequests
      ensures Valid() && old(cancelRequests) <= cancelRequests
      ensures world.session != Some(O.Regular) ==> orders == old(orders) && cancelRequests == old(cancelRequests)
      ensures world.session == Some(O.Regular) ==>
                CancelsAsked(old(orders), orders, Swept(symbols, positions, config), config, world)
      ensures world.session == Some(O.Regular) ==>
                forall s, o :: && s in symbols && s in config.extendedHours && P.ClaimOf(positions[s]) == Some(o)
                               && o in old(orders) && (old(orders)[o].Submitted? || old(orders)[o].PartiallyFilled?)
                               && old(orders)[o].session == O.Extended
                               && old(orders)[o].terms.executor == config.executor ==>
                  if O.Send(Some(old(orders)[o]), O.CancelOrder(world.status(o), world.cancelReply(o))).Some?
                  then orders[o].Cancelling? || orders[o].Filled? || orders[o].Failed? || orders[o].Cancelled?
                  else orders[o] == old(orders)[o]
      ensures forall o :: && o in old(orders)
                          && ((!old(orders)[o].Submitted? && !old(orders)[o].PartiallyFilled?)
                              || old(orders)[o].session != O.Extended
                              || old(orders)[o].terms.executor != config.executor) ==>
                orders[o] == old(orders)[o]
      ensures forall o :: && o in old(orders)
                          && (forall s :: s in symbols && s in config.extendedHours ==>
                                P.ClaimOf(positions[s]) != Some(o)) ==>
                orders[o] == old(orders)[o]
    {
      if world.session != Some(O.Regular) { return; }
      for i := 0 to |symbols|
        invariant Valid() && old(cancelRequests) <= cancelRequests
        invariant CancelsAsked(old(orders), orders, Swept(symbols[..i], positions, config), config, world)
      {
        ghost var before := orders;
        RequestCancelFor(symbols[i], config, world);
        SweepGrows(symbols, positions, config, i);
        AskOneMore(old(orders), before, orders, Swept(symbols[..i], positions, config),
                   EnabledClaim(positions, symbols[i], config), config, world);
      }
      assert symbols[..|symbols|] == symbols;
      SweepMeans(old(orders), orders, symbols, positions, config, world);
    }

    method RequestCancelFor(symbol: Symbol, config: Config, world: World)
      requires Valid() && symbol in positions
      modifies this`orders, this`cancelRequests
      ensures Valid() && old(cancelRequests) <= cancelRequests
      ensures orders == AskedOne(old(orders), EnabledClaim(positions, symbol, config), config, world)
    {
      var claim := P.ClaimOf(positions[symbol]);
      if && symbol in config.extendedHours && claim.Some? && claim.value in orders
         && LiveExtended(orders[claim.value], config.executor) {
        RequestCancel(claim.value, world);
      }
    }

    method RequestCancel(o: OrderId, world: World)
      requires Valid() && o in orders && (orders[o].Submitted? || orders[o].PartiallyFilled?)
      modifies this`orders, this`cancelRequests
      ensures Valid()
      ensures orders == old(orders)[o := O.After(old(orders)[o], world.CancelOf(o))]
      ensures cancelRequests == old(cancelRequests) + (if Accepts(old(orders)[o], world.CancelOf(o)) then [o] else [])
    {
      var order := orders[o];
      O.CommandKeeps(order, world.CancelOf(o));
      CancelSettles(order, world.CancelOf(o));
      if Accepts(order, world.CancelOf(o)) {
        cancelRequests := cancelRequests + [o];
      }
      orders := orders[o := O.After(order, world.CancelOf(o))];
    }

    /** Startup and periodic recovery: resolves claims on missing and ended orders and
        re-drives the placement of pending ones, clearing the claim if the broker refuses. */
    method RecoverOrphanedPendingOrders(symbols: seq<Symbol>, world: World)
      requires Valid() && Lists(symbols)
      modifies this`positions, this`orders, this`calls
      ensures Valid() && positions.Keys == old(positions).Keys
      ensures PassRecovers(old(orders), orders, Claimed(symbols, old(positions)), world)
      ensures forall s :: s in positions ==> positions[s] == RecoveredStream(old(positions)[s], old(orders), world)
      ensures old(calls) <= calls && AllKeyed(old(positions), calls[|old(calls)|..])
    {
      ghost var made: seq<H.Call> := [];
      for i := 0 to |symbols|
        invariant Valid() && Recovering(old(positions), old(orders), positions, orders, symbols[..i], world)
        invariant calls == old(calls) + made && AllKeyed(old(positions), made)
      {
        ghost var held, current := positions, orders;
        FreshNext(symbols, i);
        RecoverVisited(symbols[i], world);
        RecoverNext(old(positions), old(orders), held, current, positions, orders, symbols[..i], symbols[i], world);
        KeyedOneMore(old(positions), made, symbols[i], current);
        made := made + RecoveryCall(old(positions)[symbols[i]], current);
      }
      assert symbols[..|symbols|] == symbols;
    }

    /** One visit of the pass, by the specifications of its two stores. */
    method RecoverVisited(symbol: Symbol, world: World)
      requires Valid() && symbol in positions
      modifies this`positions, this`orders, this`calls
      ensures Valid()
      ensures positions == old(positions)[symbol := RecoveredStream(old(positions)[symbol], old(orders), world)]
      ensures orders == RecoveredOne(old(orders), P.ClaimOf(old(positions)[symbol]), world)
      ensures calls == old(calls) + RecoveryCall(old(positions)[symbol], old(orders))
    {
      RecoverSingleOrphanedOrder(symbol, world);
    }

    method RecoverSingleOrphanedOrder(symbol: Symbol, world: World)
      requires Valid() && symbol in positions
      modifies this`positions, this`orders, this`calls
      ensures Valid()
      ensures positions == old(positions)[symbol := RecoveredStream(old(positions)[symbol], old(orders), world)]
      ensures orders == RecoveredOne(old(orders), P.ClaimOf(old(positions)[symbol]), world)
      ensures calls == old(calls) + RecoveryCall(old(positions)[symbol], old(orders))
      ensures match P.ClaimOf(old(positions)[symbol])
              case None => positions == old(positions) && orders == old(orders) && calls == old(calls)
              case Some(o) =>
                if o !in old(orders) then P.ClaimOf(positions[symbol]) == None && orders == old(orders)
                else if old(orders)[o].Pending? then
                  && calls == old(calls) + [H.Call(o, P.ClientKey(old(positions)[symbol], o))]
                  && match world.placeReply(o)
                     case Accepted(shares, session) =>
                       && orders == old(orders)[o := O.Submitted(old(orders)[o].terms, shares, session)]
                       && positions == old(positions)
                     case Refused =>
                       && orders ==
                          old(orders)[o := O.Failed(old(orders)[o].terms, old(orders)[o].shares, None, false)]
                       && P.ClaimOf(positions[symbol]) == None
                else
                  && orders == old(orders) && calls == old(calls)
                  && if (old(orders)[o].Filled? || old(orders)[o].Failed? || old(orders)[o].Cancelled?)
                        && !O.HoldsUnpricedFill(old(orders)[o])
                     then P.ClaimOf(positions[symbol]) == None else positions == old(positions)
    {
      RecoveryByState(positions[symbol], orders, world);
      var stream := positions[symbol];
      RecoveredIsReached(stream, orders, world);
      var claim := P.ClaimOf(stream);
      if claim.None? { return; }
      var o := claim.value;
      if o !in orders {
        positions := positions[symbol := P.After(stream, P.FailOffChainOrder(o))];
        return;
      }
      var command := O.PositionCommandFor(orders[o], o);
      if command.Some? {
        positions := positions[symbol := P.After(stream, command.value)];
        return;
      }
      if orders[o].Pending? {
        calls := calls + [H.Call(o, P.ClientKey(stream, o))];
        AnswerSettles(orders[o], world, o);
        orders := orders[o := O.After(orders[o], world.OutcomeOf(o))];
        if orders[o].Failed? {
          positions := positions[symbol := P.After(stream, P.FailOffChainOrder(o))];
        }
      }
    }

    /** The same recovery when a placement finds the position claimed: whatever remains
        claimed afterwards and is with the broker is polled. */
    method RecoverClaimedOffchainOrder(symbol: Symbol, world: World)
      requires Valid() && symbol in positions
      modifies this`positions, this`orders, this`calls, this`polls
      ensures Valid() && symbol in positions && positions == old(positions)[symbol := positions[symbol]]
      ensures OnlyPendingMoved(old(orders), orders)
      ensures Converged(positions[symbol], orders) && Balanced(old(positions)[symbol], positions[symbol], orders)
      ensures polls == match P.ClaimOf(positions[symbol])
                       case Some(claimed) =>
                         if && claimed in orders
                            && (|| orders[claimed].Submitted? || orders[claimed].PartiallyFilled?
                                || orders[claimed].Cancelling?)
                         then old(polls) + [claimed] else old(polls)
                       case None => old(polls)
      ensures P.ClaimOf(old(positions)[symbol]).None? ==>
          positions == old(positions) && orders == old(orders) && calls == old(calls)
    {
      if P.ClaimOf(positions[symbol]).None? { return; }
      ghost var claimed := iset{P.ClaimOf(positions[symbol]).value};
      RecoverSingleOrphanedOrder(symbol, world);
      PassMovesPending(old(orders), orders, claimed, world);
      RecoveredSettles(old(positions)[symbol], old(orders), orders, claimed, world);
      polls := polls + LiveClaim(positions[symbol], orders);
    }

    /** One placement from claim to dispatch. A refused claim leaves the position to the
        recovery of what already claims it. An accepted one makes exactly one broker call,
        under the key the position had before, and ends with the claim on a submitted and
        polled order, or with the claim gone and its key handed to the next attempt. */
    method PlaceOffchainOrder(symbol: Symbol, o: OrderId, requested: P.PositiveShares, terms: O.Terms,
                              session: O.Session, world: World)
      requires Valid() && o !in orders
      modifies this`positions, this`orders, this`calls, this`polls
      ensures Valid() && positions.Keys == old(positions).Keys
      ensures forall s :: s in positions && s != symbol ==> positions[s] == old(positions)[s]
      ensures symbol !in old(positions) ==> orders == old(orders) && calls == old(calls) && polls == old(polls)
      ensures ClaimAccepted(old(positions), symbol, ClaimFor(o, requested, terms)) ==>
                && o in orders
                && orders == old(orders)[o := Offered(o, requested, terms, session, world)]
                && positions[symbol] ==
                   Dispatched(P.After(old(positions)[symbol], ClaimFor(o, requested, terms)), orders[o], o)
                && PlacedOnce(old(positions)[symbol], positions[symbol], o, orders[o])
                && calls == old(calls) + [H.Call(o, P.ClientKey(old(positions)[symbol], o))]
                && match world.placeReply(o)
                   case Accepted(shares, session) =>
                     && orders[o] == O.Submitted(terms, shares, session)
                     && positions[symbol].log == old(positions)[symbol].log +
                          [P.OffChainOrderPlaced(o, requested, terms.direction)]
                     && P.ClaimOf(positions[symbol]) == Some(o) && polls == old(polls) + [o]
                   case Refused =>
                     && orders[o] == O.Failed(terms, requested, None, false)
                     && positions[symbol].log == old(positions)[symbol].log +
                          [P.OffChainOrderPlaced(o, requested, terms.direction), P.OffChainOrderFailed(o)]
                     && P.ClaimOf(positions[symbol]) == None && polls == old(polls)
      ensures ClaimRefused(old(positions), symbol, ClaimFor(o, requested, terms)) ==>
                && OnlyPendingMoved(old(orders), orders)
                && Converged(positions[symbol], orders) && Balanced(old(positions)[symbol], positions[symbol], orders)
                && polls == match P.ClaimOf(positions[symbol])
                            case Some(claimed) =>
                              if && claimed in orders
                                 && (|| orders[claimed].Submitted? || orders[claimed].PartiallyFilled?
                                     || orders[claimed].Cancelling?)
                              then old(polls) + [claimed] else old(polls)
                            case None => old(polls)
    {
      // A position nothing was ever booked on refuses every claim.
      if symbol !in positions { return; }
      if P.Send(positions[symbol], ClaimFor(o, requested, terms)).Err? {
        RecoverClaimedOffchainOrder(symbol, world);
      } else {
        PlacementIsLogged(positions[symbol], o, requested, terms, session, world);
        ClaimAndCreate(symbol, o, requested, terms, session, world);
      }
    }

    /** The placement of an accepted claim. */
    method ClaimAndCreate(symbol: Symbol, o: OrderId, requested: P.PositiveShares, terms: O.Terms,
                          session: O.Session, world: World)
      requires Valid() && o !in orders && ClaimAccepted(positions, symbol, ClaimFor(o, requested, terms))
      modifies this`positions, this`orders, this`calls, this`polls
      ensures Valid() && symbol in positions && positions == old(positions)[symbol := positions[symbol]]
      ensures o in orders && orders == old(orders)[o := Offered(o, requested, terms, session, world)]
      ensures positions[symbol] ==
              Dispatched(P.After(old(positions)[symbol], ClaimFor(o, requested, terms)), orders[o], o)
      ensures PlacedOnce(old(positions)[symbol], positions[symbol], o, orders[o])
      ensures calls == old(calls) + [H.Call(o, P.ClientKey(old(positions)[symbol], o))]
      ensures match world.placeReply(o)
              case Accepted(shares, session) =>
                && orders[o] == O.Submitted(terms, shares, session)
                && P.ClaimOf(positions[symbol]) == Some(o) && polls == old(polls) + [o]
              case Refused =>
                && orders[o] == O.Failed(terms, requested, None, false)
                && P.ClaimOf(positions[symbol]) == None && polls == old(polls)
    {
      TakeClaim(symbol, ClaimFor(o, requested, terms));
      CreateOffchainOrder(symbol, o, requested, terms, session, world);
    }

    /** Records a claimed order, offers it to the broker and dispatches the answer. */
    method CreateOffchainOrder(symbol: Symbol, o: OrderId, requested: P.PositiveShares, terms: O.Terms,
                               session: O.Session, world: World)
      requires Valid() && symbol in positions && o !in orders && P.ClaimOf(positions[symbol]) == Some(o)
      modifies this`positions, this`orders, this`calls, this`polls
      ensures Valid() && symbol in positions && positions == old(positions)[symbol := positions[symbol]]
      ensures o in orders && orders == old(orders)[o := Offered(o, requested, terms, session, world)]
      ensures positions[symbol] == Dispatched(old(positions)[symbol], orders[o], o)
      ensures PlacedOnce(old(positions)[symbol], positions[symbol], o, orders[o])
      ensures calls == old(calls) + [H.Call(o, P.ClientKey(old(positions)[symbol], o))]
      ensures match world.placeReply(o)
              case Accepted(shares, session) =>
                && orders[o] == O.Submitted(terms, shares, session)
                && P.ClaimOf(positions[symbol]) == Some(o) && polls == old(polls) + [o]
              case Refused =>
                && orders[o] == O.Failed(terms, requested, None, false)
                && P.ClaimOf(positions[symbol]) == None && polls == old(polls)
    {
      var stream := positions[symbol];
      orders := orders[o := O.Pending(terms, requested, session)];
      calls := calls + [H.Call(o, P.ClientKey(stream, o))];
      AnswerSettles(orders[o], world, o);
      orders := orders[o := O.After(orders[o], world.OutcomeOf(o))];
      if orders[o].Failed? {
        P.CloseEffect(stream, P.FailOffChainOrder(o), o);
        P.ReachedAfter(stream, P.FailOffChainOrder(o));
        positions := positions[symbol := P.After(stream, P.FailOffChainOrder(o))];
      }
      polls := polls + LiveClaim(positions[symbol], orders);
    }

    method TakeClaim(symbol: Symbol, claim: P.Command)
      requires Valid() && symbol in positions && claim.PlaceOffChainOrder? && P.Send(positions[symbol], claim).Ok?
      modifies this`positions
      ensures Valid() && positions == old(positions)[symbol := P.After(old(positions)[symbol], claim)]
      ensures var before, after := old(positions)[symbol], positions[symbol];
              && P.ClaimOf(before).None? && P.ClaimOf(after) == Some(claim.order)
              && P.AnchorOf(after) == P.AnchorOf(before) && P.HedgeTotal(after.log) == P.HedgeTotal(before.log)
    {
      P.ClaimEffect(positions[symbol], claim);
      P.ReachedAfter(positions[symbol], claim);
      positions := positions[symbol := P.After(positions[symbol], claim)];
    }

    /** One tick, its store and broker calls succeeding. From any state, every remaining
        claim points to an order the broker is working on or to a fill without a price;
        each position's books moved by exactly the fills of the claims released; and an
        enabled symbol still claims a live extended-hours order only if that order refused
        its cancel, or was first answered by the broker during this very tick. */
    method Perform(symbols: seq<Symbol>, config: Config, world: World)
      requires Valid() && Lists(symbols)
      modifies this
      ensures Valid() && positions.Keys == old(positions).Keys && old(cancelRequests) <= cancelRequests
      ensures exists swept :: Ticks(old(positions), old(orders), swept, positions, orders, symbols, config, world)
      ensures EndedStand(old(orders), orders)
      ensures forall s :: s in positions ==>
                Converged(positions[s], orders) && Balanced(old(positions)[s], positions[s], orders)
      ensures world.session == Some(O.Regular) ==>
                forall s :: s in positions && s in config.extendedHours ==>
                  LiveOnlyIfRefused(positions[s], old(orders), orders, config, world)
      ensures world.session == Some(O.Regular) ==>
                forall s, o :: && s in old(positions) && s in config.extendedHours
                               && P.ClaimOf(old(positions)[s]) == Some(o)
                               && o in old(orders) && (old(orders)[o].Submitted? || old(orders)[o].PartiallyFilled?)
                               && old(orders)[o].session == O.Extended
                               && old(orders)[o].terms.executor == config.executor ==>
                  if O.Send(Some(old(orders)[o]), O.CancelOrder(world.status(o), world.cancelReply(o))).Some?
                  then orders[o].Cancelling? || orders[o].Filled? || orders[o].Failed? || orders[o].Cancelled?
                  else orders[o] == old(orders)[o]
      ensures forall o :: && o in old(orders) && !old(orders)[o].Pending?
                          && (|| world.session != Some(O.Regular)
                              || (!old(orders)[o].Submitted? && !old(orders)[o].PartiallyFilled?)
                              || old(orders)[o].session != O.Extended
                              || old(orders)[o].terms.executor != config.executor) ==>
                orders[o] == old(orders)[o]
      ensures forall s, o :: && s in old(positions) && P.ClaimOf(old(positions)[s]) == Some(o)
                             && o in old(orders) && old(orders)[o].Pending? ==>
                match world.placeReply(o)
                case Accepted(shares, session) => orders[o] == O.Submitted(old(orders)[o].terms, shares, session)
                case Refused => orders[o] == O.Failed(old(orders)[o].terms, old(orders)[o].shares, None, false)
    {
      FinalizeTerminalPendingPositions(symbols);
      assert positions == FinalizedAll(old(positions), old(orders));
      if config.extendedHours != {} {
        RequestExtendedHoursCancellations(symbols, config, world);
      }
      ghost var swept := orders;
      RecoverOrphanedPendingOrders(symbols, world);
      assert Ticks(old(positions), old(orders), swept, positions, orders, symbols, config, world);
      TickLeavesEnded(old(positions), old(orders), swept, positions, orders, symbols, config, world);
      TickByState(old(positions), old(orders), swept, positions, orders, symbols, config, world);
      TickSparesOthers(old(positions), old(orders), swept, positions, orders, symbols, config, world);
      forall s, o | && s in positions && P.ClaimOf(old(positions)[s]) == Some(o)
                    && o in old(orders) && old(orders)[o].Pending?
        ensures match world.placeReply(o)
                case Accepted(shares, session) =>
                  orders[o] == O.Submitted(old(orders)[o].terms, shares, session)
                case Refused => orders[o] == O.Failed(old(orders)[o].terms, old(orders)[o].shares, None, false)
      {
        TickAnswers(old(positions), old(orders), swept, positions, orders, symbols, config, world, s, o);
      }
      forall s | s in positions
        ensures Converged(positions[s], orders) && Balanced(old(positions)[s], positions[s], orders)
        ensures world.session == Some(O.Regular) && s in config.extendedHours ==>
                  LiveOnlyIfRefused(positions[s], old(orders), orders, config, world)
      {
        TickSettles(old(positions), old(orders), swept, positions, orders, symbols, config, world, s);
      }
    }
  }

  function FinalizedAll(positions: map<Symbol, P.Stream>, orders: Orders): map<Symbol, P.Stream>
  {
    map s | s in positions :: Finalized(positions[s], orders)
  }

  /** What a whole tick does, by its three passes; `swept` are the orders between the last
      two. */
  ghost predicate Ticks(start: map<Symbol, P.Stream>, before: Orders, swept: Orders,
                        now: map<Symbol, P.Stream>, after: Orders,
                        symbols: seq<Symbol>, config: Config, world: World)
  {
    var finalized := FinalizedAll(start, before);
    && (world.session != Some(O.Regular) ==> swept == before)
    && (world.session == Some(O.Regular) ==>
          CancelsAsked(before, swept, Swept(symbols, finalized, config), config, world))
    && PassRecovers(swept, after, Claimed(symbols, finalized), world)
    && now.Keys == start.Keys
    && forall s :: s in start ==> s in symbols && now[s] == RecoveredStream(finalized[s], swept, world)
  }

  lemma TickLeavesEnded(start: map<Symbol, P.Stream>, before: Orders, swept: Orders,
                        now: map<Symbol, P.Stream>, after: Orders,
                        symbols: seq<Symbol>, config: Config, world: World)
    requires Ticks(start, before, swept, now, after, symbols, config, world)
    ensures EndedStand(before, swept) && EndedStand(before, after)
  {
    var finalized := FinalizedAll(start, before);
    AskedStand(before, swept, Swept(symbols, finalized, config), config, world);
    PassMovesPending(swept, after, Claimed(symbols, finalized), world);
  }

  /** Where one tick leaves one position. */
  lemma TickSettles(start: map<Symbol, P.Stream>, before: Orders, swept: Orders,
                    now: map<Symbol, P.Stream>, after: Orders,
                    symbols: seq<Symbol>, config: Config, world: World, s: Symbol)
    requires Ticks(start, before, swept, now, after, symbols, config, world)
    requires s in start && P.Reached(start[s])
    ensures Converged(now[s], after) && Balanced(start[s], now[s], after)
    ensures world.session == Some(O.Regular) && s in config.extendedHours ==>
              LiveOnlyIfRefused(now[s], before, after, config, world)
  {
    var finalized := FinalizedAll(start, before);
    FinalizedBalances(start[s], before);
    RecoveredSettles(finalized[s], swept, after, Claimed(symbols, finalized), world);
    TickLeavesEnded(start, before, swept, now, after, symbols, config, world);
    FinalizedStaysBalanced(start[s], now[s], before, after);
    if world.session == Some(O.Regular) && s in config.extendedHours {
      PassMovesPending(swept, after, Claimed(symbols, finalized), world);
      AskedOrNew(finalized[s], now[s], before, swept, after, Swept(symbols, finalized, config), config, world);
    }
  }

  /** The finalize pass keeps every claim on an order that has not ended. */
  lemma OpenClaimStays(stream: P.Stream, orders: Orders, o: OrderId)
    requires P.ClaimOf(stream) == Some(o) && o in orders && !orders[o].Terminal()
    ensures Finalized(stream, orders) == stream
  {
  }

  /** In regular hours one tick asks every live extended-hours order of the configured
      executor that an enabled symbol claims to cancel. */
  lemma TickByState(start: map<Symbol, P.Stream>, before: Orders, swept: Orders,
                    now: map<Symbol, P.Stream>, after: Orders,
                    symbols: seq<Symbol>, config: Config, world: World)
    requires Ticks(start, before, swept, now, after, symbols, config, world)
    requires forall s :: s in symbols ==> s in start
    ensures world.session == Some(O.Regular) ==>
              forall s, o :: && s in start && s in config.extendedHours && P.ClaimOf(start[s]) == Some(o)
                             && o in before && (before[o].Submitted? || before[o].PartiallyFilled?)
                             && before[o].session == O.Extended
                             && before[o].terms.executor == config.executor ==>
                if O.Send(Some(before[o]), O.CancelOrder(world.status(o), world.cancelReply(o))).Some?
                then after[o].Cancelling? || after[o].Filled? || after[o].Failed? || after[o].Cancelled?
                else after[o] == before[o]
  {
    var finalized := FinalizedAll(start, before);
    forall s, o | s in start && P.ClaimOf(start[s]) == Some(o) && o in before && !before[o].Terminal()
      ensures P.ClaimOf(finalized[s]) == Some(o)
    {
      OpenClaimStays(start[s], before, o);
    }
    PassMovesPending(swept, after, Claimed(symbols, finalized), world);
    if world.session == Some(O.Regular) {
      SweepMeans(before, swept, symbols, finalized, config, world);
    }
  }

  /** And it leaves every other order that is not pending as it was. */
  lemma TickSparesOthers(start: map<Symbol, P.Stream>, before: Orders, swept: Orders,
                         now: map<Symbol, P.Stream>, after: Orders,
                         symbols: seq<Symbol>, config: Config, world: World)
    requires Ticks(start, before, swept, now, after, symbols, config, world)
    requires forall s :: s in symbols ==> s in start
    ensures forall o :: && o in before && !before[o].Pending?
                        && (|| world.session != Some(O.Regular)
                            || (!before[o].Submitted? && !before[o].PartiallyFilled?)
                            || before[o].session != O.Extended
                            || before[o].terms.executor != config.executor) ==>
              after[o] == before[o]
  {
    var finalized := FinalizedAll(start, before);
    PassMovesPending(swept, after, Claimed(symbols, finalized), world);
    if world.session == Some(O.Regular) {
      SweepMeans(before, swept, symbols, finalized, config, world);
    }
  }

  /** A pending order still claimed is offered again and ends as the broker answers. */
  lemma TickAnswers(start: map<Symbol, P.Stream>, before: Orders, swept: Orders,
                    now: map<Symbol, P.Stream>, after: Orders,
                    symbols: seq<Symbol>, config: Config, world: World, s: Symbol, o: OrderId)
    requires Ticks(start, before, swept, now, after, symbols, config, world)
    requires s in start && P.ClaimOf(start[s]) == Some(o) && o in before && before[o].Pending?
    ensures match world.placeReply(o)
            case Accepted(shares, session) => after[o] == O.Submitted(before[o].terms, shares, session)
            case Refused => after[o] == O.Failed(before[o].terms, before[o].shares, None, false)
  {
    var finalized := FinalizedAll(start, before);
    OpenClaimStays(start[s], before, o);
    assert o in Claimed(symbols, finalized);
    PassMovesPending(swept, after, Claimed(symbols, finalized), world);
    assert swept[o] == before[o];
    AnswerSettles(before[o], world, o);
  }

  /** A live extended-hours order still claimed refused its cancel, or was pending. */
  predicate LiveOnlyIfRefused(stream: P.Stream, before: Orders, after: Orders,
                              config: Config, world: World)
  {
    ClaimsLiveExtended(stream, after, config.executor) ==>
      var o := P.ClaimOf(stream).value;
      o in before && (before[o].Pending? || !Accepts(before[o], world.CancelOf(o)))
  }

  lemma AskedOrNew(start: P.Stream, end: P.Stream, before: Orders, swept: Orders, after: Orders,
                   asked: iset<OrderId>, config: Config, world: World)
    requires CancelsAsked(before, swept, asked, config, world) && OnlyPendingMoved(swept, after)
    requires Balanced(start, end, after) && (P.ClaimOf(start).Some? ==> P.ClaimOf(start).value in asked)
    ensures LiveOnlyIfRefused(end, before, after, config, world)
  {
    if ClaimsLiveExtended(end, after, config.executor) {
      var o := P.ClaimOf(end).value;
      CancelSettles(before[o], world.CancelOf(o));
    }
  }

  /** The cancel pass leaves ended orders alone, whatever it asks. */
  lemma AskedStand(before: Orders, after: Orders, asked: iset<OrderId>, config: Config,
                   world: World)
    requires before == after || CancelsAsked(before, after, asked, config, world)
    ensures EndedStand(before, after)
  {
  }

  function AskedOne(orders: Orders, claim: Option<OrderId>, config: Config, world: World): Orders
  {
    if claim.Some? && claim.value in orders
    then orders[claim.value := CancelAsked(orders[claim.value], world.CancelOf(claim.value), config.executor)]
    else orders
  }

  /** The sweep, order by order: a live extended-hours order of the configured executor
      claimed by an enabled symbol is cancelled unless it refuses; every other stands. */
  lemma SweepMeans(before: Orders, after: Orders, symbols: seq<Symbol>, positions: map<Symbol, P.Stream>,
                   config: Config, world: World)
    requires CancelsAsked(before, after, Swept(symbols, positions, config), config, world)
    requires forall s :: s in symbols ==> s in positions
    ensures forall s, o :: && s in symbols && s in config.extendedHours && P.ClaimOf(positions[s]) == Some(o)
                           && o in before && (before[o].Submitted? || before[o].PartiallyFilled?)
                           && before[o].session == O.Extended && before[o].terms.executor == config.executor ==>
              if O.Send(Some(before[o]), O.CancelOrder(world.status(o), world.cancelReply(o))).Some?
              then after[o].Cancelling? || after[o].Filled? || after[o].Failed? || after[o].Cancelled?
              else after[o] == before[o]
    ensures forall o :: && o in before
                        && ((!before[o].Submitted? && !before[o].PartiallyFilled?)
                            || before[o].session != O.Extended || before[o].terms.executor != config.executor) ==>
              after[o] == before[o]
    ensures forall o :: && o in before
                        && (forall s :: s in symbols && s in config.extendedHours ==>
                                P.ClaimOf(positions[s]) != Some(o)) ==>
              after[o] == before[o]
  {
    forall o | o in before ensures before[o].Submitted? || before[o].PartiallyFilled? ==>
        (if Accepts(before[o], world.CancelOf(o)) then O.Phase(O.After(before[o], world.CancelOf(o))) >= 2
         else O.After(before[o], world.CancelOf(o)) == before[o])
    {
      CancelSettles(before[o], world.CancelOf(o));
    }
  }

  /** Asking twice is asking once, so symbols may be swept in any order. */
  lemma AskOneMore(before: Orders, current: Orders, after: Orders,
                   asked: iset<OrderId>, claim: Option<OrderId>, config: Config, world: World)
    requires CancelsAsked(before, current, asked, config, world)
    requires after == AskedOne(current, claim, config, world)
    ensures CancelsAsked(before, after, if claim.Some? then asked + iset{claim.value} else asked, config, world)
  {
    if claim.Some? && claim.value in before {
      CancelSettles(before[claim.value], world.CancelOf(claim.value));
    }
  }

  predicate ClaimsLiveExtended(stream: P.Stream, orders: Orders, executor: O.Executor)
  {
    && P.ClaimOf(stream).Some? && P.ClaimOf(stream).value in orders
    && LiveExtended(orders[P.ClaimOf(stream).value], executor)
  }

  /** No order is lost, and one that has ended is never touched. */
  predicate EndedStand(before: Orders, after: Orders)
  {
    && after.Keys == before.Keys
    && forall o :: o in before && before[o].Terminal() ==> after[o] == before[o]
  }

  /** What the finalize sweep settled stays settled through the passes that follow it. */
  lemma FinalizedStaysBalanced(start: P.Stream, end: P.Stream, before: Orders, after: Orders)
    requires Balanced(start, Finalized(start, before), before)
    requires Balanced(Finalized(start, before), end, after)
    requires EndedStand(before, after)
    ensures Balanced(start, end, after)
  {
  }

  lemma SweepGrows(symbols: seq<Symbol>, positions: map<Symbol, P.Stream>, config: Config, i: nat)
    requires i < |symbols| && symbols[i] in positions
    ensures var claim := EnabledClaim(positions, symbols[i], config);
            var asked := Swept(symbols[..i], positions, config);
            Swept(symbols[..i + 1], positions, config) == if claim.Some? then asked + iset{claim.value} else asked
  {
    assert symbols[..i + 1] == symbols[..i] + [symbols[i]];
  }

  /** An accepted cancel takes the order out of the sweep's sight for good; a refused one
      leaves it exactly as it was. */
  lemma CancelSettles(order: O.Order, command: O.Command)
    requires command.CancelOrder?
    ensures (order.Submitted? || order.PartiallyFilled?) && Accepts(order, command) ==>
              O.Phase(O.After(order, command)) >= 2
    ensures !Accepts(order, command) ==> O.After(order, command) == order
  {
    if (order.Submitted? || order.PartiallyFilled?) && O.CancelEvents(order, command.status, command.reply).Ok? {
      O.CancelShape(order, command.status, command.reply);
      O.CancelOutcome(order, O.CancelEvents(order, command.status, command.reply).value);
    }
  }

  /** The broker's acceptance submits a pending order under its own terms; a refusal fails
      it without a fill. */
  lemma AnswerSettles(order: O.Order, world: World, o: OrderId)
    requires order.Pending?
    ensures O.After(order, world.OutcomeOf(o)) ==
            match world.placeReply(o)
            case Accepted(shares, session) => O.Submitted(order.terms, shares, session)
            case Refused => O.Failed(order.terms, order.shares, None, false)
  {
    match world.placeReply(o)
    case Accepted(shares, session) => L.BrokerAnswer(order, shares, session);
    case Refused => L.BrokerAnswer(order, order.shares, order.session);
  }
}
