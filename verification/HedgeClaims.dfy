/**
 Hedge claim, placement and recovery for one symbol. A position claims an order id
 before the order exists; the broker call sits between two commits; several paths may
 finalize the same order. Every path is a chain of separate durable steps, and between
 any two of them other paths run or the process dies.
 */
module HedgeClaims {
  import opened Common
  import P = Positions
  import O = OffchainOrders

  /** Which of the four rules of the road a run obeys. With a rule off, the machine does
      what the code does when nothing enforces that rule. */
  datatype Discipline = Discipline(
    // A claim never names an order id that was claimed before.
    freshIds: bool,
    // A claim on a missing order is not released while its placement holds the lock.
    lockedRelease: bool,
    // The post-placement dispatch meets no failed order with a fill on record.
    fillFreeDispatch: bool,
    // No fill is recorded between the rejection job's load and its own order write.
    currentRejection: bool)

  const SERIALIZED := Discipline(true, true, true, true)

  datatype BrokerReply = Accepted(shares: P.PositiveShares, session: O.Session) | Refused

  /** An order id together with the client key of a broker call for it. */
  datatype Call = Call(order: OrderId, key: OrderId)

  datatype Hedge = Hedge(
    // Durable.
    position: P.Stream,
    orders: map<OrderId, O.Order>,
    // In the hands of running paths; a path that dies simply never uses it again.
    placing: set<OrderId>,
    keysInHand: set<Call>,
    cleared: set<Call>,
    replies: set<(OrderId, BrokerReply)>,
    seen: set<(OrderId, O.Order)>,
    rejecting: set<(OrderId, O.Order)>,
    filling: set<(OrderId, O.Order)>,
    // History.
    claimed: map<OrderId, OrderId>,
    released: seq<OrderId>,
    calls: seq<Call>,
    answers: map<OrderId, BrokerReply>)

  const INITIAL := Hedge(P.EMPTY, map[], {}, {}, {}, {}, {}, {}, {}, map[], [], [], map[])

  datatype Action =
    | Claim(order: OrderId, requested: P.PositiveShares, direction: Direction)
    | DeriveKey(order: OrderId)
    | Record(order: OrderId, terms: O.Terms, shares: P.PositiveShares, session: O.Session)
    | LoadForPlacement(call: Call)
    | CallBroker(call: Call, reply: BrokerReply)
    | CommitReply(order: OrderId, reply: BrokerReply)
    | OrderCommand(order: OrderId, orderCommand: O.Command)
    | LoadOrder(order: OrderId)
    | Finalize(order: OrderId, loaded: O.Order)
    | DispatchFailed(order: OrderId, loaded: O.Order)
    | ReleaseMissing(order: OrderId)
    | MarkRejected(order: OrderId, loaded: O.Order)
    | CloseRejected(order: OrderId, loaded: O.Order)
    | MarkFilled(order: OrderId, loaded: O.Order)
    | CloseFilled(order: OrderId, loaded: O.Order)
    | PositionCommand(command: P.Command)
    | Crash

  function Close(h: Hedge, order: OrderId, command: P.Command): Hedge
  {
    match P.Send(h.position, command)
    case Ok(stream) => h.(position := stream, released := h.released + [order])
    case Err(_) => h
  }

  function ReplyCommand(reply: BrokerReply): O.Command
  {
    match reply
    case Accepted(shares, session) => O.MarkAccepted(shares, session)
    case Refused => O.MarkPlacementFailed
  }

  /** A failed order whose fill the dispatch arm would drop. */
  predicate DropsFill(order: O.Order)
  {
    order.Failed? && order.reachedBroker && O.RetainedShares(order) > 0.0
  }

  predicate Unrelated(command: P.Command)
  {
    && !command.PlaceOffChainOrder? && !command.CompleteOffChainOrder?
    && !command.FailOffChainOrder? && !command.CancelOffChainOrder?
  }

  /** Commands the poll, fill and rejection jobs and the cancel sweep send to an order. */
  predicate Runtime(command: O.Command)
  {
    !command.Place? && !command.MarkAccepted? && !command.MarkPlacementFailed?
  }

  /** One action; an action that is not enabled changes nothing. */
  function Apply(d: Discipline, h: Hedge, action: Action): Hedge
  {
    match action
    case Claim(o, requested, direction) =>
      if d.freshIds && o in h.claimed then h
      else (match P.Send(h.position, P.PlaceOffChainOrder(o, requested, direction))
            case Ok(stream) =>
              h.(position := stream, placing := h.placing + {o}, claimed := h.claimed[o := P.ClientKey(stream, o)])
            case Err(_) => h)
    case DeriveKey(o) =>
      // Placement and both re-drives read the anchor from the live position.
      if o !in h.claimed then h else h.(keysInHand := h.keysInHand + {Call(o, P.ClientKey(h.position, o))})
    case Record(o, terms, shares, session) =>
      if o !in h.placing then h
      else h.(placing := h.placing - {o},
              orders := if o in h.orders then h.orders else h.orders[o := O.Pending(terms, shares, session)])
    case LoadForPlacement(call) =>
      if call in h.keysInHand && call.order in h.orders && h.orders[call.order].Pending? then
        h.(cleared := h.cleared + {call})
      else h
    case CallBroker(call, reply) =>
      if call !in h.cleared then h
      else h.(calls := h.calls + [call], replies := h.replies + {(call.order, reply)})
    case CommitReply(o, reply) =>
      if (o, reply) !in h.replies || o !in h.orders then h
      else
        h.(orders := h.orders[o := O.After(h.orders[o], ReplyCommand(reply))],
           answers := if h.orders[o].Pending? then h.answers[o := reply] else h.answers)
    case OrderCommand(o, command) =>
      if o !in h.orders || !Runtime(command) then h
      else h.(orders := h.orders[o := O.After(h.orders[o], command)])
    case LoadOrder(o) =>
      if o !in h.orders then h else h.(seen := h.seen + {(o, h.orders[o])})
    case Finalize(o, loaded) =>
      if (o, loaded) !in h.seen then h
      else (match O.PositionCommandFor(loaded, o)
            case Some(command) => Close(h, o, command)
            case None => h)
    case DispatchFailed(o, loaded) =>
      if (o, loaded) !in h.seen || !loaded.Failed? || (d.fillFreeDispatch && DropsFill(loaded)) then h
      else Close(h, o, P.FailOffChainOrder(o))
    case ReleaseMissing(o) =>
      if o in h.orders || (d.lockedRelease && o in h.placing) then h
      else Close(h, o, P.FailOffChainOrder(o))
    case MarkRejected(o, loaded) =>
      // The rejection job's order write; an ended order it loaded needs none.
      if (o, loaded) !in h.seen || o !in h.orders || loaded.Filled? then h
      else if loaded.Terminal() then h.(rejecting := h.rejecting + {(o, loaded)})
      else (match O.Send(Some(h.orders[o]), O.MarkFailed)
            case Some(order) => h.(orders := h.orders[o := order], rejecting := h.rejecting + {(o, loaded)})
            case None => h)
    case CloseRejected(o, loaded) =>
      // Its position write, picked from the state loaded before the order write.
      if (o, loaded) !in h.rejecting || o !in h.orders then h
      else if d.currentRejection && O.PricedFill(loaded) != O.PricedFill(h.orders[o]) then h
      else (match O.RejectionCommand(loaded, o)
            case Some(command) => Close(h, o, command)
            case None => h)
    case MarkFilled(o, loaded) =>
      if (o, loaded) !in h.seen || o !in h.orders || !(loaded.Live() || loaded.Filled?) then h
      else if loaded.Filled? then h.(filling := h.filling + {(o, loaded)})
      else (match O.Send(Some(h.orders[o]), O.CompleteFill)
            case Some(order) => h.(orders := h.orders[o := order], filling := h.filling + {(o, loaded)})
            case None => h)
    case CloseFilled(o, loaded) =>
      if (o, loaded) !in h.filling then h
      else (match O.ReconcileFillCommand(loaded, o)
            case Some(command) => Close(h, o, command)
            case None => h)
    case PositionCommand(command) =>
      if Unrelated(command) then h.(position := P.After(h.position, command)) else h
    case Crash => h.(placing := {})
  }

  function RunFrom(d: Discipline, start: Hedge, actions: seq<Action>): Hedge
  {
    if actions == [] then start
    else Apply(d, RunFrom(d, start, actions[..|actions| - 1]), actions[|actions| - 1])
  }

  function Run(d: Discipline, actions: seq<Action>): Hedge { RunFrom(d, INITIAL, actions) }

  // ----- What every disciplined run keeps -----

  function ClaimOf(h: Hedge): Option<OrderId> { P.ClaimOf(h.position) }

  /** The signed fill a released claim owes its position. */
  function Owed(orders: map<OrderId, O.Order>, o: OrderId): real
  {
    if o in orders then O.SignedFill(orders[o]) else 0.0
  }

  function OwedTotal(orders: map<OrderId, O.Order>, released: seq<OrderId>): real
  {
    if released == [] then 0.0
    else OwedTotal(orders, released[..|released| - 1]) + Owed(orders, released[|released| - 1])
  }

  /** The order can be finalized: it ended, and every share it filled has a price. */
  predicate Recordable(order: O.Order)
  {
    order.Terminal() && !O.HoldsUnpricedFill(order)
  }

  /** Claims follow orders: an order that is about to be recorded, or has not ended, holds
      the claim. */
  predicate ClaimsCover(h: Hedge)
  {
    && h.placing <= h.claimed.Keys && h.orders.Keys <= h.claimed.Keys
    && (forall o :: o in h.placing ==> o in h.orders || ClaimOf(h) == Some(o))
    && (forall o :: o in h.orders && !h.orders[o].Terminal() ==> ClaimOf(h) == Some(o))
    && (ClaimOf(h).Some? ==> ClaimOf(h).value in h.claimed && ClaimOf(h).value !in h.released)
    && (forall o :: o in h.claimed ==> o in h.released || ClaimOf(h) == Some(o))
  }

  predicate ReleasesHold(h: Hedge)
  {
    && Distinct(h.released)
    && (forall o :: o in h.released ==>
          o in h.claimed && (if o in h.orders then Recordable(h.orders[o]) else o !in h.placing))
  }

  /** States loaded at any time in the past agree with the current ones on terms, on size
      once the broker has the order, and altogether once they are terminal. */
  predicate SightingsHold(h: Hedge)
  {
    forall s :: s in h.seen ==> s.0 in h.orders && StillAgrees(s.1, h.orders[s.0])
  }

  predicate StillAgrees(loaded: O.Order, current: O.Order)
  {
    && loaded.terms == current.terms && O.Phase(loaded) <= O.Phase(current)
    && (!loaded.Pending? ==> loaded.shares == current.shares)
    && (loaded.Terminal() ==> loaded == current)
  }

  /** The two jobs that wrote to their order before their position stand on an order that
      has ended accordingly, and every fill on record has a price. */
  predicate JobsHold(h: Hedge)
  {
    && (forall s :: s in h.rejecting ==>
          s in h.seen && !s.1.Filled? && s.0 in h.orders && (h.orders[s.0].Failed? || h.orders[s.0].Cancelled?))
    && (forall s :: s in h.filling ==>
          s in h.seen && (s.1.Live() || s.1.Filled?) && s.0 in h.orders && h.orders[s.0].Filled?)
    && (forall o :: o in h.orders ==> O.OnlyPricedFills(h.orders[o]))
  }

  predicate Shape(h: Hedge)
  {
    ClaimsCover(h) && ReleasesHold(h) && SightingsHold(h)
  }

  ghost predicate Inv(h: Hedge)
  {
    && P.Reached(h.position)
    && Shape(h) && JobsHold(h)
    && P.HedgeTotal(h.position.log) == OwedTotal(h.orders, h.released)
  }

  lemma {:induction false} OwedFrame(before: map<OrderId, O.Order>, after: map<OrderId, O.Order>,
                                     released: seq<OrderId>)
    requires forall o :: o in released ==> Owed(before, o) == Owed(after, o)
    ensures OwedTotal(before, released) == OwedTotal(after, released)
  {
    if released != [] {
      var shorter := released[..|released| - 1];
      assert forall o :: o in shorter ==> o in released;
      OwedFrame(before, after, shorter);
      assert released[|released| - 1] in released;
    }
  }

  lemma OwedAppend(orders: map<OrderId, O.Order>, released: seq<OrderId>, o: OrderId)
    ensures OwedTotal(orders, released + [o]) == OwedTotal(orders, released) + Owed(orders, o)
  {
    assert (released + [o])[..|released|] == released;
  }

  /** A position stream that has let go of the claim. */
  lemma ReleaseKeepsShape(h: Hedge, stream: P.Stream, o: OrderId)
    requires Shape(h) && ClaimOf(h) == Some(o) && P.ClaimOf(stream).None?
    requires if o in h.orders then Recordable(h.orders[o]) else o !in h.placing
    ensures Shape(h.(position := stream, released := h.released + [o]))
  {
    var after := h.(position := stream, released := h.released + [o]);
    assert forall x :: x in after.released <==> x in h.released || x == o;
    assert ReleasesHold(after) by {
      forall i, j | 0 <= i < j < |after.released| ensures after.released[i] != after.released[j] {
        assert after.released[i] == h.released[i] && h.released[i] in h.released;
      }
    }
  }

  function Booked(command: P.Command): real
  {
    if command.CompleteOffChainOrder? then Signed(command.direction, command.sharesFilled) else 0.0
  }

  /** The order is missing for good or recordable, and the command reports exactly its
      fill. */
  predicate Settles(h: Hedge, o: OrderId, command: P.Command)
  {
    && P.ClosesOrder(command, o)
    && (if o in h.orders then Recordable(h.orders[o]) else o !in h.placing)
    && Owed(h.orders, o) == Booked(command)
  }

  lemma CloseKeepsInv(h: Hedge, o: OrderId, command: P.Command)
    requires Inv(h) && Settles(h, o, command)
    ensures Inv(Close(h, o, command))
  {
    P.CloseEffect(h.position, command, o);
    P.ReachedAfter(h.position, command);
    var stream := P.After(h.position, command);
    if ClaimOf(h) == Some(o) {
      ReleaseKeepsShape(h, stream, o);
      OwedAppend(h.orders, h.released, o);
      assert Close(h, o, command) == h.(position := stream, released := h.released + [o]);
    } else {
      assert Close(h, o, command) == h;
    }
  }

  /** Replacing an order by what a command makes of it. */
  lemma OrderWriteKeepsShape(h: Hedge, o: OrderId, command: O.Command)
    requires Shape(h) && o in h.orders && !h.orders[o].Terminal()
    ensures Shape(h.(orders := h.orders[o := O.After(h.orders[o], command)]))
    ensures o !in h.released
  {
    O.CommandKeeps(h.orders[o], command);
  }

  lemma OrderWriteKeepsJobs(h: Hedge, o: OrderId, command: O.Command)
    requires JobsHold(h) && o in h.orders
    ensures JobsHold(h.(orders := h.orders[o := O.After(h.orders[o], command)]))
  {
    O.CommandKeeps(h.orders[o], command);
  }

  lemma OrderWriteKeepsInv(h: Hedge, o: OrderId, command: O.Command)
    requires Inv(h) && o in h.orders
    ensures Inv(h.(orders := h.orders[o := O.After(h.orders[o], command)]))
  {
    var after := h.(orders := h.orders[o := O.After(h.orders[o], command)]);
    OrderWriteKeepsJobs(h, o, command);
    if h.orders[o].Terminal() {
      O.CommandKeeps(h.orders[o], command);
      assert after.orders == h.orders;
    } else {
      OrderWriteKeepsShape(h, o, command);
      OwedFrame(h.orders, after.orders, h.released);
    }
  }

  lemma RecordKeepsShape(h: Hedge, action: Action)
    requires Shape(h) && JobsHold(h) && action.Record? && action.order in h.placing
    ensures Shape(Apply(SERIALIZED, h, action)) && JobsHold(Apply(SERIALIZED, h, action))
    ensures action.order in h.orders || action.order !in h.released
  {
  }

  lemma RecordKeepsInv(h: Hedge, action: Action)
    requires Inv(h) && action.Record?
    ensures Inv(Apply(SERIALIZED, h, action))
  {
    if action.order in h.placing {
      RecordKeepsShape(h, action);
      OwedFrame(h.orders, Apply(SERIALIZED, h, action).orders, h.released);
    }
  }

  /** Taking a job's order write into its hands changes nothing else. */
  lemma InHandKeepsInv(h: Hedge, rejecting: set<(OrderId, O.Order)>, filling: set<(OrderId, O.Order)>)
    requires Inv(h) && JobsHold(h.(rejecting := rejecting, filling := filling))
    ensures Inv(h.(rejecting := rejecting, filling := filling))
  {
    var after := h.(rejecting := rejecting, filling := filling);
    assert ClaimsCover(after) && ReleasesHold(after) && SightingsHold(after);
  }

  lemma MarkRejectedKeepsInv(h: Hedge, action: Action)
    requires Inv(h) && action.MarkRejected?
    ensures Inv(Apply(SERIALIZED, h, action))
  {
    var o, loaded := action.order, action.loaded;
    if (o, loaded) in h.seen && o in h.orders && !loaded.Filled? {
      if loaded.Terminal() {
        InHandKeepsInv(h, h.rejecting + {(o, loaded)}, h.filling);
      } else if O.Send(Some(h.orders[o]), O.MarkFailed).Some? {
        MarkFailedFails(h.orders[o]);
        WriteInHandKeepsInv(h, o, O.MarkFailed, h.rejecting + {(o, loaded)}, h.filling);
      }
    }
  }

  lemma WriteInHandKeepsInv(h: Hedge, o: OrderId, command: O.Command,
                            rejecting: set<(OrderId, O.Order)>, filling: set<(OrderId, O.Order)>)
    requires Inv(h) && o in h.orders
    requires var written := h.(orders := h.orders[o := O.After(h.orders[o], command)]);
             JobsHold(written) ==> JobsHold(written.(rejecting := rejecting, filling := filling))
    ensures Inv(h.(orders := h.orders[o := O.After(h.orders[o], command)], rejecting := rejecting, filling := filling))
  {
    OrderWriteKeepsInv(h, o, command);
    InHandKeepsInv(h.(orders := h.orders[o := O.After(h.orders[o], command)]), rejecting, filling);
  }

  lemma MarkFailedFails(order: O.Order)
    requires O.Send(Some(order), O.MarkFailed).Some?
    ensures O.After(order, O.MarkFailed).Failed?
  {
    O.ApplyOne(Some(order), O.FailedEvent);
  }

  lemma CompleteFillFills(order: O.Order)
    requires O.Send(Some(order), O.CompleteFill).Some?
    ensures O.After(order, O.CompleteFill).Filled?
  {
    O.ApplyOne(Some(order), O.FilledEvent);
  }

  lemma MarkFilledKeepsInv(h: Hedge, action: Action)
    requires Inv(h) && action.MarkFilled?
    ensures Inv(Apply(SERIALIZED, h, action))
  {
    var o, loaded := action.order, action.loaded;
    if (o, loaded) in h.seen && o in h.orders && (loaded.Live() || loaded.Filled?) {
      if loaded.Filled? {
        InHandKeepsInv(h, h.rejecting, h.filling + {(o, loaded)});
      } else if O.Send(Some(h.orders[o]), O.CompleteFill).Some? {
        CompleteFillFills(h.orders[o]);
        WriteInHandKeepsInv(h, o, O.CompleteFill, h.rejecting, h.filling + {(o, loaded)});
      }
    }
  }

  lemma OrderCommandKeepsInv(h: Hedge, action: Action)
    requires Inv(h) && (action.CommitReply? || action.OrderCommand?)
    ensures Inv(Apply(SERIALIZED, h, action))
  {
    if action.order in h.orders {
      OrderWriteKeepsInv(h, action.order,
          if action.CommitReply? then ReplyCommand(action.reply) else action.orderCommand);
    }
  }

  lemma ClaimKeepsInv(h: Hedge, action: Action)
    requires Inv(h) && action.Claim?
    ensures Inv(Apply(SERIALIZED, h, action))
  {
    var command := P.PlaceOffChainOrder(action.order, action.requested, action.direction);
    P.ClaimEffect(h.position, command);
    P.ReachedAfter(h.position, command);
  }

  lemma PositionCommandKeepsInv(h: Hedge, action: Action)
    requires Inv(h) && action.PositionCommand?
    ensures Inv(Apply(SERIALIZED, h, action))
  {
    if Unrelated(action.command) {
      P.UnrelatedEffect(h.position, action.command);
      P.ReachedAfter(h.position, action.command);
    }
  }

  predicate Closing(action: Action)
  {
    || action.Finalize? || action.DispatchFailed? || action.ReleaseMissing?
    || action.CloseRejected? || action.CloseFilled?
  }

  /** No step at all, or a release that books what the order owes. */
  predicate StaysOrCloses(h: Hedge, action: Action, command: P.Command)
    requires Closing(action)
  {
    var after := Apply(SERIALIZED, h, action);
    after == h || (Settles(h, action.order, command) && after == Close(h, action.order, command))
  }

  lemma FinalizeCloses(h: Hedge, action: Action) returns (command: P.Command)
    requires Inv(h) && action.Finalize?
    ensures StaysOrCloses(h, action, command)
  {
    var o, loaded := action.order, action.loaded;
    command := P.FailOffChainOrder(o);
    if (o, loaded) in h.seen && O.PositionCommandFor(loaded, o).Some? {
      assert StillAgrees(loaded, h.orders[o]);
      command := O.PositionCommandFor(loaded, o).value;
    }
  }

  lemma DispatchCloses(h: Hedge, action: Action) returns (command: P.Command)
    requires Inv(h) && action.DispatchFailed?
    ensures StaysOrCloses(h, action, command)
  {
    var o, loaded := action.order, action.loaded;
    command := P.FailOffChainOrder(o);
    if (o, loaded) in h.seen {
      assert StillAgrees(loaded, h.orders[o]);
    }
  }

  /** What the rejection job's position write books. */
  lemma RejectionBooks(h: Hedge, o: OrderId, loaded: O.Order)
    requires Inv(h) && (o, loaded) in h.rejecting
    ensures O.RejectionCommand(loaded, o).Some? && P.ClosesOrder(O.RejectionCommand(loaded, o).value, o)
    ensures o in h.orders && Recordable(h.orders[o])
    ensures Booked(O.RejectionCommand(loaded, o).value) == Signed(h.orders[o].terms.direction, O.PricedFill(loaded))
    ensures Owed(h.orders, o) == Signed(h.orders[o].terms.direction, O.PricedFill(h.orders[o]))
  {
    assert O.OnlyPricedFills(h.orders[o]);
    assert StillAgrees(loaded, h.orders[o]);
  }

  lemma RejectionCloses(h: Hedge, action: Action) returns (command: P.Command)
    requires Inv(h) && action.CloseRejected?
    ensures StaysOrCloses(h, action, command)
  {
    var o, loaded := action.order, action.loaded;
    command := P.FailOffChainOrder(o);
    if (o, loaded) in h.rejecting {
      RejectionBooks(h, o, loaded);
      command := O.RejectionCommand(loaded, o).value;
    }
  }

  lemma FillCloses(h: Hedge, action: Action) returns (command: P.Command)
    requires Inv(h) && action.CloseFilled?
    ensures StaysOrCloses(h, action, command)
  {
    var o, loaded := action.order, action.loaded;
    command := P.FailOffChainOrder(o);
    if (o, loaded) in h.filling {
      assert StillAgrees(loaded, h.orders[o]);
      command := O.ReconcileFillCommand(loaded, o).value;
    }
  }

  /** Every action that may release the claim. */
  lemma CloseStep(h: Hedge, action: Action) returns (command: P.Command)
    requires Inv(h) && Closing(action)
    ensures StaysOrCloses(h, action, command)
  {
    match action
    case Finalize(_, _) => command := FinalizeCloses(h, action);
    case DispatchFailed(_, _) => command := DispatchCloses(h, action);
    case CloseRejected(_, _) => command := RejectionCloses(h, action);
    case CloseFilled(_, _) => command := FillCloses(h, action);
    case ReleaseMissing(o) => command := P.FailOffChainOrder(o);
  }

  lemma CloseActionKeepsInv(h: Hedge, action: Action)
    requires Inv(h) && Closing(action)
    ensures Inv(Apply(SERIALIZED, h, action))
  {
    var command := CloseStep(h, action);
    if Apply(SERIALIZED, h, action) != h {
      CloseKeepsInv(h, action.order, command);
    }
  }

  lemma BrokerKeepsShape(h: Hedge, action: Action)
    requires Shape(h)
    requires action.LoadForPlacement? || action.CallBroker?
    ensures Shape(Apply(SERIALIZED, h, action))
  {
  }

  lemma HandsKeepShape(h: Hedge, action: Action)
    requires Shape(h)
    requires action.DeriveKey? || action.LoadOrder? || action.Crash?
    ensures Shape(Apply(SERIALIZED, h, action))
  {
  }

  /** Steps that only read, or that only touch what running paths hold. */
  lemma HandsKeepInv(h: Hedge, action: Action)
    requires Inv(h)
    requires || action.LoadForPlacement? || action.CallBroker?
             || action.DeriveKey? || action.LoadOrder? || action.Crash?
    ensures Inv(Apply(SERIALIZED, h, action))
  {
    if action.LoadForPlacement? || action.CallBroker? {
      BrokerKeepsShape(h, action);
    } else {
      HandsKeepShape(h, action);
    }
  }

  lemma ApplyKeepsInv(h: Hedge, action: Action)
    requires Inv(h)
    ensures Inv(Apply(SERIALIZED, h, action))
  {
    match action
    case Claim(_, _, _) => ClaimKeepsInv(h, action);
    case PositionCommand(_) => PositionCommandKeepsInv(h, action);
    case Record(_, _, _, _) => RecordKeepsInv(h, action);
    case CommitReply(_, _) => OrderCommandKeepsInv(h, action);
    case OrderCommand(_, _) => OrderCommandKeepsInv(h, action);
    case MarkRejected(_, _) => MarkRejectedKeepsInv(h, action);
    case MarkFilled(_, _) => MarkFilledKeepsInv(h, action);
    case Finalize(_, _) => CloseActionKeepsInv(h, action);
    case DispatchFailed(_, _) => CloseActionKeepsInv(h, action);
    case ReleaseMissing(_) => CloseActionKeepsInv(h, action);
    case CloseRejected(_, _) => CloseActionKeepsInv(h, action);
    case CloseFilled(_, _) => CloseActionKeepsInv(h, action);
    case _ => HandsKeepInv(h, action);
  }

  lemma {:induction false} RunFromKeepsInv(start: Hedge, actions: seq<Action>)
    requires Inv(start)
    ensures Inv(RunFrom(SERIALIZED, start, actions))
  {
    if actions != [] {
      var before := actions[..|actions| - 1];
      RunFromKeepsInv(start, before);
      ApplyKeepsInv(RunFrom(SERIALIZED, start, before), actions[|actions| - 1]);
    }
  }

  lemma EveryRunKeepsInv(actions: seq<Action>)
    ensures Inv(Run(SERIALIZED, actions))
  {
    P.EmptyIsReached();
    RunFromKeepsInv(INITIAL, actions);
  }
}
