/**
 Broker keys over whole runs: the key of an order never changes, a deduplicating broker
 holds at most one order for it, and no broker order is booked under two claims.
 */
module HedgeKeys {
  import opened Common
  import opened HedgeClaims
  import P = Positions
  import O = OffchainOrders

  predicate KeyIsFixed(h: Hedge, call: Call)
  {
    call.order in h.claimed && call.key == h.claimed[call.order]
  }

  /** Keys in use are the ones fixed at the claim; only a path whose order is no longer
      claimed may hold another. */
  predicate KeysHold(h: Hedge)
  {
    && (ClaimOf(h).Some? ==> KeyIsFixed(h, Call(ClaimOf(h).value, P.ClientKey(h.position, ClaimOf(h).value))))
    && (forall c :: c in h.keysInHand ==> c.order in h.claimed && (ClaimOf(h) == Some(c.order) ==> KeyIsFixed(h, c)))
    && (forall c :: c in h.cleared ==> KeyIsFixed(h, c))
    && (forall c :: c in h.calls ==> KeyIsFixed(h, c))
  }

  // ----- Keys are fixed at the claim -----

  lemma ClaimKeepsKeys(h: Hedge, action: Action)
    requires Inv(h) && KeysHold(h) && action.Claim?
    ensures KeysHold(Apply(SERIALIZED, h, action))
  {
    P.ClaimEffect(h.position, P.PlaceOffChainOrder(action.order, action.requested, action.direction));
  }

  /** A release leaves no claim, and so no key to hold on to. */
  lemma CloseFreesClaim(h: Hedge, action: Action) returns (command: P.Command)
    requires Inv(h) && Closing(action)
    ensures StaysOrCloses(h, action, command)
    ensures var after := Apply(SERIALIZED, h, action);
            after != h ==>
              && ClaimOf(h) == Some(action.order) && ClaimOf(after).None?
              && after == h.(position := P.After(h.position, command), released := h.released + [action.order])
              && P.AnchorOf(after.position) ==
                 if command.FailOffChainOrder? then Some(P.ClientKey(h.position, action.order)) else None
  {
    command := CloseStep(h, action);
    if Apply(SERIALIZED, h, action) != h {
      P.CloseEffect(h.position, command, action.order);
    }
  }

  lemma UnrelatedKeepsKeys(h: Hedge, action: Action)
    requires Inv(h) && KeysHold(h) && action.PositionCommand?
    ensures KeysHold(Apply(SERIALIZED, h, action))
  {
    if Unrelated(action.command) {
      P.UnrelatedEffect(h.position, action.command);
    }
  }

  /** Keys derived, cleared and used by placement and both re-drives. */
  lemma HandsKeepKeys(h: Hedge, action: Action)
    requires ClaimsCover(h) && KeysHold(h)
    requires action.DeriveKey? || action.LoadForPlacement? || action.CallBroker?
    ensures KeysHold(Apply(SERIALIZED, h, action))
  {
  }

  predicate WritesOrders(action: Action)
  {
    action.Record? || action.CommitReply? || action.OrderCommand? || action.MarkRejected? || action.MarkFilled?
  }

  lemma OrdersKeepKeys(h: Hedge, action: Action)
    requires KeysHold(h) && (WritesOrders(action) || action.LoadOrder? || action.Crash?)
    ensures KeysHold(Apply(SERIALIZED, h, action))
  {
  }

  lemma ApplyKeepsKeys(h: Hedge, action: Action)
    requires Inv(h) && KeysHold(h)
    ensures KeysHold(Apply(SERIALIZED, h, action))
  {
    if Closing(action) {
      var command := CloseFreesClaim(h, action);
    } else {
      match action
      case Claim(_, _, _) => ClaimKeepsKeys(h, action);
      case PositionCommand(_) => UnrelatedKeepsKeys(h, action);
      case DeriveKey(_) => HandsKeepKeys(h, action);
      case LoadForPlacement(_) => HandsKeepKeys(h, action);
      case CallBroker(_, _) => HandsKeepKeys(h, action);
      case _ => OrdersKeepKeys(h, action);
    }
  }

  lemma {:induction false} EveryRunKeepsKeys(actions: seq<Action>)
    ensures Inv(Run(SERIALIZED, actions)) && KeysHold(Run(SERIALIZED, actions))
  {
    EveryRunKeepsInv(actions);
    if actions != [] {
      var before := actions[..|actions| - 1];
      EveryRunKeepsKeys(before);
      ApplyKeepsKeys(Run(SERIALIZED, before), actions[|actions| - 1]);
    }
  }

  /** Every broker call made for one order id, by the first placement and by both
      re-drives after any number of crashes, carries the key fixed when it was claimed. */
  lemma StableBrokerKey(actions: seq<Action>, i: nat, j: nat)
    requires i < |Run(SERIALIZED, actions).calls| && j < |Run(SERIALIZED, actions).calls|
    requires Run(SERIALIZED, actions).calls[i].order == Run(SERIALIZED, actions).calls[j].order
    ensures Run(SERIALIZED, actions).calls[i] == Run(SERIALIZED, actions).calls[j]
    ensures KeyIsFixed(Run(SERIALIZED, actions), Run(SERIALIZED, actions).calls[i])
  {
    EveryRunKeepsKeys(actions);
    var h := Run(SERIALIZED, actions);
    assert h.calls[i] in h.calls && h.calls[j] in h.calls;
  }

  /** The orders a broker deduplicating on the client key holds, by key, oldest first. */
  function BrokerBook(calls: seq<Call>): seq<OrderId>
  {
    if calls == [] then []
    else
      var book, key := BrokerBook(calls[..|calls| - 1]), calls[|calls| - 1].key;
      if key in book then book else book + [key]
  }

  lemma {:induction false} BookIsDistinct(calls: seq<Call>)
    ensures Distinct(BrokerBook(calls))
  {
    if calls != [] {
      BookIsDistinct(calls[..|calls| - 1]);
    }
  }

  lemma {:induction false} BookHoldsKey(calls: seq<Call>, i: nat)
    requires i < |calls|
    ensures calls[i].key in BrokerBook(calls)
  {
    if i < |calls| - 1 {
      BookHoldsKey(calls[..|calls| - 1], i);
    }
  }

  /** However often the placement of a claimed order is driven, a deduplicating broker
      holds at most one order for it, the one under the key fixed at the claim. */
  lemma OneBrokerOrderPerClaim(actions: seq<Action>, o: OrderId, i: nat)
    requires var h := Run(SERIALIZED, actions); i < |h.calls| && h.calls[i].order == o
    ensures var h := Run(SERIALIZED, actions);
            && Distinct(BrokerBook(h.calls)) && o in h.claimed && h.claimed[o] in BrokerBook(h.calls)
            && forall key :: key in BrokerBook(h.calls) && Call(o, key) in h.calls ==> key == h.claimed[o]
  {
    var h := Run(SERIALIZED, actions);
    EveryRunKeepsKeys(actions);
    BookIsDistinct(h.calls);
    BookHoldsKey(h.calls, i);
    assert h.calls[i] in h.calls;
  }

  /** A failed placement hands its key to whatever is claimed next, so the broker sees
      every attempt of a chain of failures as one order. */
  lemma FailureHandsOnItsKey(actions: seq<Action>, o: OrderId, next: OrderId)
    requires ClaimOf(Run(SERIALIZED, actions)) == Some(o)
    ensures var h := Run(SERIALIZED, actions);
            && o in h.claimed
            && P.ClientKey(P.After(h.position, P.FailOffChainOrder(o)), next) == h.claimed[o]
  {
    EveryRunKeepsKeys(actions);
    P.CloseEffect(Run(SERIALIZED, actions).position, P.FailOffChainOrder(o), o);
  }

  /** Finalizing an ended order hands its key on exactly when it failed without a fill to
      book; after a fill or a cancellation the replacement is a new order to the broker. */
  lemma OnlyFailureHandsOnItsKey(actions: seq<Action>, o: OrderId, next: OrderId)
    requires var h := Run(SERIALIZED, actions); ClaimOf(h) == Some(o) && o in h.orders && Recordable(h.orders[o])
    ensures var h := Run(SERIALIZED, actions);
            && o in h.claimed && O.PositionCommandFor(h.orders[o], o).Some?
            && P.ClientKey(P.After(h.position, O.PositionCommandFor(h.orders[o], o).value), next)
               == if h.orders[o].Failed? && O.SignedFill(h.orders[o]) == 0.0 then h.claimed[o] else next
  {
    EveryRunKeepsKeys(actions);
    var h := Run(SERIALIZED, actions);
    P.CloseEffect(h.position, O.PositionCommandFor(h.orders[o], o).value, o);
  }

  // ----- No broker order is booked under two claims -----

  /** The released claims whose orders have a fill on record. */
  function BookedIds(h: Hedge): set<OrderId>
  {
    set o | o in h.released && Owed(h.orders, o) != 0.0
  }

  /** What matters of a state here: the keys fixed so far, the claims that booked a fill,
      the failure anchor and the claim. */
  datatype View = View(
    keys: map<OrderId, OrderId>,
    booked: set<OrderId>,
    anchor: Option<OrderId>,
    claim: Option<OrderId>)

  function ViewOf(h: Hedge): View
  {
    View(h.claimed, BookedIds(h), P.AnchorOf(h.position), ClaimOf(h))
  }

  predicate KeyIsKnown(keys: map<OrderId, OrderId>, o: OrderId) { o in keys ==> keys[o] in keys }

  /** No claim that booked a fill went under this key. */
  predicate Unspent(v: View, key: OrderId)
  {
    forall o :: o in v.booked && o in v.keys ==> v.keys[o] != key
  }

  /** Keys that booked a fill are distinct, and neither claim nor anchor uses one. */
  ghost predicate SpentOnce(v: View)
  {
    && v.booked <= v.keys.Keys
    && (forall o :: KeyIsKnown(v.keys, o))
    && (forall o, p :: o in v.booked && p in v.booked && v.keys[o] == v.keys[p] ==> o == p)
    && (v.anchor.Some? ==> v.anchor.value in v.keys && Unspent(v, v.anchor.value))
    && (v.claim.Some? && v.claim.value in v.keys ==> Unspent(v, v.keys[v.claim.value]))
  }

  /** A fresh id claimed under the anchor, or else under itself. */
  lemma ClaimSpends(v: View, o: OrderId)
    requires SpentOnce(v) && o !in v.keys
    ensures SpentOnce(v.(keys := v.keys[o := if v.anchor.Some? then v.anchor.value else o], claim := Some(o)))
  {
    var key := if v.anchor.Some? then v.anchor.value else o;
    var after := v.(keys := v.keys[o := key], claim := Some(o));
    forall x ensures KeyIsKnown(after.keys, x) {
      assert KeyIsKnown(v.keys, x);
    }
    forall x | x in after.booked ensures after.keys[x] != key {
      assert KeyIsKnown(v.keys, x);
    }
  }

  /** A released claim that booked a fill, after which the anchor is clear, or one that
      booked none and may leave its key as anchor. */
  lemma CloseSpends(v: View, o: OrderId, books: bool, anchor: Option<OrderId>)
    requires SpentOnce(v) && v.claim == Some(o) && o in v.keys
    requires anchor == None || (!books && anchor == Some(v.keys[o]))
    ensures SpentOnce(v.(booked := if books then v.booked + {o} else v.booked, anchor := anchor, claim := None))
  {
    assert KeyIsKnown(v.keys, o);
  }

  // ----- The machine's actions on this view -----

  /** An order that ended stays as it is. */
  lemma EndedStands(h: Hedge, action: Action, o: OrderId)
    requires WritesOrders(action) && o in h.orders && h.orders[o].Terminal()
    ensures o in Apply(SERIALIZED, h, action).orders && Apply(SERIALIZED, h, action).orders[o] == h.orders[o]
  {
    match action
    case CommitReply(_, reply) => O.CommandKeeps(h.orders[o], ReplyCommand(reply));
    case OrderCommand(_, command) => O.CommandKeeps(h.orders[o], command);
    case MarkRejected(_, _) => O.CommandKeeps(h.orders[o], O.MarkFailed);
    case MarkFilled(_, _) => O.CommandKeeps(h.orders[o], O.CompleteFill);
    case _ =>
  }

  /** What released claims owe is settled: no action changes it. */
  lemma ReleasedStands(h: Hedge, action: Action, o: OrderId)
    requires Inv(h) && WritesOrders(action) && o in h.released
    ensures Owed(Apply(SERIALIZED, h, action).orders, o) == Owed(h.orders, o)
  {
    if o in h.orders {
      EndedStands(h, action, o);
    }
  }

  lemma OrdersMoveNothingElse(h: Hedge, action: Action)
    requires WritesOrders(action)
    ensures var after := Apply(SERIALIZED, h, action);
            after.position == h.position && after.claimed == h.claimed && after.released == h.released
  {
  }

  lemma BookedFrame(h: Hedge, after: Hedge)
    requires after.position == h.position && after.claimed == h.claimed && after.released == h.released
    requires forall o :: o in h.released ==> Owed(after.orders, o) == Owed(h.orders, o)
    ensures ViewOf(after) == ViewOf(h)
  {
  }

  lemma OrdersKeepView(h: Hedge, action: Action)
    requires Inv(h) && WritesOrders(action)
    ensures ViewOf(Apply(SERIALIZED, h, action)) == ViewOf(h)
  {
    var after := Apply(SERIALIZED, h, action);
    OrdersMoveNothingElse(h, action);
    forall o | o in h.released ensures Owed(after.orders, o) == Owed(h.orders, o) {
      ReleasedStands(h, action, o);
    }
    BookedFrame(h, after);
  }

  lemma ClaimMovesView(h: Hedge, action: Action)
    requires Inv(h) && action.Claim?
    ensures var v, after := ViewOf(h), ViewOf(Apply(SERIALIZED, h, action));
            || after == v
            || (action.order !in v.keys &&
                after == v.(keys := v.keys[action.order := if v.anchor.Some? then v.anchor.value else action.order],
                            claim := Some(action.order)))
  {
    P.ClaimEffect(h.position, P.PlaceOffChainOrder(action.order, action.requested, action.direction));
  }

  lemma CloseMovesView(h: Hedge, action: Action)
    requires Inv(h) && KeysHold(h) && Closing(action)
    ensures var v, after, books := ViewOf(h), ViewOf(Apply(SERIALIZED, h, action)), Owed(h.orders, action.order) != 0.0;
            || after == v
            || (&& v.claim == Some(action.order) && action.order in v.keys
                && (after.anchor == None || (!books && after.anchor == Some(v.keys[action.order])))
                && after == v.(booked := if books then v.booked + {action.order} else v.booked,
                               anchor := after.anchor, claim := None))
  {
    var command := CloseFreesClaim(h, action);
    var after := Apply(SERIALIZED, h, action);
    if after != h {
      assert BookedIds(after) == BookedIds(h) + if Owed(h.orders, action.order) != 0.0 then {action.order} else {};
    }
  }

  lemma UnrelatedMovesView(h: Hedge, action: Action)
    requires Inv(h) && action.PositionCommand?
    ensures var v, after := ViewOf(h), ViewOf(Apply(SERIALIZED, h, action));
            after == v || after == v.(anchor := None)
  {
    if Unrelated(action.command) {
      P.UnrelatedEffect(h.position, action.command);
    }
  }

  lemma ApplyKeepsSpentOnce(h: Hedge, action: Action)
    requires Inv(h) && KeysHold(h) && SpentOnce(ViewOf(h))
    ensures SpentOnce(ViewOf(Apply(SERIALIZED, h, action)))
  {
    var v, after := ViewOf(h), ViewOf(Apply(SERIALIZED, h, action));
    if Closing(action) {
      CloseMovesView(h, action);
      if after != v { CloseSpends(v, action.order, Owed(h.orders, action.order) != 0.0, after.anchor); }
    } else if WritesOrders(action) {
      OrdersKeepView(h, action);
    } else if action.Claim? {
      ClaimMovesView(h, action);
      if after != v { ClaimSpends(v, action.order); }
    } else if action.PositionCommand? {
      UnrelatedMovesView(h, action);
    }
  }

  lemma {:induction false} EveryRunSpendsKeysOnce(actions: seq<Action>)
    ensures SpentOnce(ViewOf(Run(SERIALIZED, actions)))
  {
    if actions != [] {
      var before := actions[..|actions| - 1];
      EveryRunSpendsKeysOnce(before);
      EveryRunKeepsKeys(before);
      ApplyKeepsSpentOnce(Run(SERIALIZED, before), actions[|actions| - 1]);
    }
  }

  /** Over every run, two released claims whose orders both have a fill on record went to
      the broker under different keys: no broker order is booked under two claims. */
  lemma NoBrokerOrderBookedTwice(actions: seq<Action>, o: OrderId, p: OrderId)
    requires var h := Run(SERIALIZED, actions);
             && o in h.released && p in h.released && o != p
             && Owed(h.orders, o) != 0.0 && Owed(h.orders, p) != 0.0
    ensures var h := Run(SERIALIZED, actions);
            && o in h.claimed && p in h.claimed && h.claimed[o] != h.claimed[p]
            && forall c, d :: c in h.calls && d in h.calls && c.order == o && d.order == p ==> c.key != d.key
  {
    EveryRunKeepsKeys(actions);
    EveryRunSpendsKeysOnce(actions);
    KeysDiffer(ViewOf(Run(SERIALIZED, actions)), o, p);
  }

  lemma KeysDiffer(v: View, o: OrderId, p: OrderId)
    requires SpentOnce(v) && o in v.booked && p in v.booked && o != p
    ensures v.keys[o] != v.keys[p]
  {
  }
}
