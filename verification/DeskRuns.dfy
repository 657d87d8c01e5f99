/**
 The desk's methods are runs of the hedge machine: what a tick or a placement does to one
 position and its orders, some sequence of rule-abiding actions does too.
 */
module DeskRuns {
  import opened Common
  import opened CheckPositions
  import H = HedgeClaims
  import T = HedgeTheorems
  import P = Positions
  import O = OffchainOrders

  /** The machine of one position: its stream, and the orders it ever claimed. */
  ghost predicate Mirrors(h: H.Hedge, stream: P.Stream, orders: Orders)
  {
    && h.position == stream
    && forall o :: o in h.claimed ==>
         (o in orders <==> o in h.orders) && (o in h.orders ==> orders[o] == h.orders[o])
  }

  /** A state that some rule-abiding run passes through after `start`. */
  ghost predicate Follows(start: H.Hedge, h: H.Hedge)
  {
    T.Reachable(H.SERIALIZED, h) && T.Reaches(H.SERIALIZED, start, h)
  }

  lemma Act(start: H.Hedge, h: H.Hedge, action: H.Action) returns (later: H.Hedge)
    requires Follows(start, h)
    ensures later == H.Apply(H.SERIALIZED, h, action) && Follows(start, later)
  {
    later := H.Apply(H.SERIALIZED, h, action);
    T.ReachesNext(H.SERIALIZED, start, h, action);
    T.ReachesNext(H.SERIALIZED, H.INITIAL, h, action);
  }

  lemma ClaimIsKnown(h: H.Hedge)
    requires T.Reachable(H.SERIALIZED, h)
    ensures P.Reached(h.position) && h.orders.Keys <= h.claimed.Keys
    ensures H.ClaimOf(h).Some? ==> H.ClaimOf(h).value in h.claimed
  {
    var actions :| H.RunFrom(H.SERIALIZED, H.INITIAL, actions) == h;
    H.EveryRunKeepsInv(actions);
  }

  /** An order the position claimed before, but not any more, has ended or is missing. */
  lemma OnlyTheClaimIsOpen(h: H.Hedge, o: OrderId)
    requires T.Reachable(H.SERIALIZED, h) && o in h.orders && H.ClaimOf(h) != Some(o)
    ensures h.orders[o].Terminal()
  {
    var actions :| H.RunFrom(H.SERIALIZED, H.INITIAL, actions) == h;
    H.EveryRunKeepsInv(actions);
  }

  /** Only the claimed order may have moved. */
  lemma MirrorsAfter(h: H.Hedge, stream: P.Stream, before: Orders, after: Orders)
    requires T.Reachable(H.SERIALIZED, h) && Mirrors(h, stream, before) && after.Keys == before.Keys
    requires forall o :: o in before && before[o].Terminal() ==> after[o] == before[o]
    ensures forall o :: o in h.claimed && o in before && P.ClaimOf(stream) != Some(o) ==> after[o] == before[o]
  {
    forall o | o in h.claimed && o in before && P.ClaimOf(stream) != Some(o) ensures after[o] == before[o] {
      OnlyTheClaimIsOpen(h, o);
    }
  }

  /** A claimed order is loaded and the claim on it released. */
  lemma ReleaseIsRun(start: H.Hedge, h: H.Hedge, o: OrderId) returns (later: H.Hedge)
    requires Follows(start, h) && H.ClaimOf(h) == Some(o) && o in h.claimed && o in h.orders
    requires O.PositionCommandFor(h.orders[o], o).Some?
    ensures Follows(start, later)
    ensures later.position == P.After(h.position, O.PositionCommandFor(h.orders[o], o).value)
    ensures later.orders == h.orders && later.placing == h.placing && later.claimed == h.claimed
  {
    ClaimIsKnown(h);
    later := Act(start, h, H.LoadOrder(o));
    P.CloseEffect(h.position, O.PositionCommandFor(h.orders[o], o).value, o);
    later := Act(start, later, H.Finalize(o, h.orders[o]));
  }

  /** The finalize sweep on one position. */
  lemma FinalizeIsRun(start: H.Hedge, h: H.Hedge, stream: P.Stream, orders: Orders) returns (later: H.Hedge)
    requires Follows(start, h) && Mirrors(h, stream, orders)
    ensures Follows(start, later) && Mirrors(later, Finalized(stream, orders), orders)
    ensures later.placing == h.placing && later.claimed == h.claimed
  {
    later := h;
    ClaimIsKnown(h);
    var claim := P.ClaimOf(stream);
    if claim.Some? && claim.value in orders && O.PositionCommandFor(orders[claim.value], claim.value).Some? {
      later := ReleaseIsRun(start, h, claim.value);
    }
  }

  lemma AskIsRun(start: H.Hedge, h: H.Hedge, o: OrderId, world: World) returns (later: H.Hedge)
    requires Follows(start, h) && o in h.orders
    ensures Follows(start, later)
    ensures later.position == h.position && later.placing == h.placing && later.claimed == h.claimed
    ensures later.orders == h.orders[o := O.After(h.orders[o], world.CancelOf(o))]
  {
    later := Act(start, h, H.OrderCommand(o, world.CancelOf(o)));
  }

  /** The cancel pass on one position. */
  lemma CancelIsRun(start: H.Hedge, h: H.Hedge, stream: P.Stream, before: Orders, after: Orders,
                    asked: iset<OrderId>, config: Config, world: World) returns (later: H.Hedge)
    requires Follows(start, h) && Mirrors(h, stream, before) && CancelsAsked(before, after, asked, config, world)
    ensures Follows(start, later) && Mirrors(later, stream, after)
    ensures later.placing == h.placing && later.claimed == h.claimed
  {
    later := h;
    var claim := P.ClaimOf(stream);
    ClaimIsKnown(h);
    MirrorsAfter(h, stream, before, after);
    if claim.Some? && claim.value in before && after[claim.value] != before[claim.value] {
      later := AskIsRun(start, h, claim.value, world);
    }
  }

  /** The broker is offered a pending order again. */
  lemma AnswerIsRun(start: H.Hedge, h: H.Hedge, o: OrderId, reply: H.BrokerReply) returns (later: H.Hedge)
    requires Follows(start, h) && o in h.claimed && o in h.orders && h.orders[o].Pending?
    ensures Follows(start, later)
    ensures later.position == h.position && later.placing == h.placing && later.claimed == h.claimed
    ensures later.orders == h.orders[o := O.After(h.orders[o], H.ReplyCommand(reply))]
  {
    var call := H.Call(o, P.ClientKey(h.position, o));
    later := Act(start, h, H.DeriveKey(o));
    later := Act(start, later, H.LoadForPlacement(call));
    later := Act(start, later, H.CallBroker(call, reply));
    later := Act(start, later, H.CommitReply(o, reply));
  }

  /** Recovery of one position, with no placement of it in flight. */
  lemma RecoverIsRun(start: H.Hedge, h: H.Hedge, stream: P.Stream, before: Orders, after: Orders,
                     claimed: iset<OrderId>, world: World) returns (later: H.Hedge)
    requires Follows(start, h) && Mirrors(h, stream, before) && h.placing == {}
    requires PassRecovers(before, after, claimed, world)
    requires P.ClaimOf(stream).Some? ==> P.ClaimOf(stream).value in claimed
    ensures Follows(start, later) && Mirrors(later, RecoveredStream(stream, before, world), after)
    ensures later.placing == {} && later.claimed == h.claimed
  {
    later := h;
    var claim := P.ClaimOf(stream);
    ClaimIsKnown(h);
    MirrorsAfter(h, stream, before, after);
    if claim.Some? && claim.value !in before {
      P.CloseEffect(stream, P.FailOffChainOrder(claim.value), claim.value);
      later := Act(start, h, H.ReleaseMissing(claim.value));
    } else if claim.Some? {
      if before[claim.value].Pending? {
        later := AnswerIsRun(start, h, claim.value, world.placeReply(claim.value));
      }
      later := FinalizeIsRun(start, later, stream, after);
    }
  }

  /** A whole tick is, for every position, a run of its machine that obeys every rule, so
      what holds over all such runs holds over any number of ticks. */
  lemma TickIsRun(h: H.Hedge, start: map<Symbol, P.Stream>, before: Orders, swept: Orders,
                  now: map<Symbol, P.Stream>, after: Orders,
                  symbols: seq<Symbol>, config: Config, world: World, s: Symbol) returns (later: H.Hedge)
    requires Ticks(start, before, swept, now, after, symbols, config, world) && s in start
    requires T.Reachable(H.SERIALIZED, h) && h.placing == {} && Mirrors(h, start[s], before)
    ensures Follows(h, later) && Mirrors(later, now[s], after) && later.placing == {}
  {
    var finalized := FinalizedAll(start, before);
    T.ReachesItself(H.SERIALIZED, h);
    later := FinalizeIsRun(h, h, start[s], before);
    if world.session == Some(O.Regular) {
      later := CancelIsRun(h, later, finalized[s], before, swept, Swept(symbols, finalized, config), config, world);
    }
    later := RecoverIsRun(h, later, finalized[s], swept, after, Claimed(symbols, finalized), world);
  }

  /** A newly claimed order appears in the machine and in the desk's orders alike. */
  lemma MirrorsNew(h: H.Hedge, later: H.Hedge, before: Orders, o: OrderId, order: O.Order)
    requires Mirrors(h, h.position, before) && later.claimed.Keys == h.claimed.Keys + {o}
    requires later.orders == h.orders[o := order]
    ensures Mirrors(later, later.position, before[o := order])
  {
  }

  /** The claim is taken and the order recorded. */
  lemma RecordIsRun(h: H.Hedge, stream: P.Stream, o: OrderId, requested: P.PositiveShares,
                    terms: O.Terms, session: O.Session) returns (later: H.Hedge)
    requires T.Reachable(H.SERIALIZED, h) && h.position == stream && o !in h.claimed
    requires P.Send(stream, ClaimFor(o, requested, terms)).Ok?
    ensures Follows(h, later) && later.position == P.After(stream, ClaimFor(o, requested, terms))
    ensures later.claimed.Keys == h.claimed.Keys + {o}
    ensures later.orders == h.orders[o := O.Pending(terms, requested, session)]
  {
    T.ReachesItself(H.SERIALIZED, h);
    ClaimIsKnown(h);
    later := Act(h, h, H.Claim(o, requested, terms.direction));
    later := Act(h, later, H.Record(o, terms, requested, session));
  }

  /** And the broker is offered it. */
  lemma OfferIsRun(h: H.Hedge, stream: P.Stream, before: Orders, o: OrderId, requested: P.PositiveShares,
                   terms: O.Terms, session: O.Session, world: World) returns (later: H.Hedge)
    requires T.Reachable(H.SERIALIZED, h) && Mirrors(h, stream, before) && o !in h.claimed && o !in before
    requires P.Send(stream, ClaimFor(o, requested, terms)).Ok?
    ensures Follows(h, later)
    ensures Mirrors(later, P.After(stream, ClaimFor(o, requested, terms)),
                    before[o := Offered(o, requested, terms, session, world)])
  {
    var recorded := RecordIsRun(h, stream, o, requested, terms, session);
    later := AnswerIsRun(h, recorded, o, world.placeReply(o));
    MirrorsNew(h, later, before, o, Offered(o, requested, terms, session, world));
  }

  /** A placement whose claim is accepted, under an id never claimed before. */
  lemma PlacementIsRun(h: H.Hedge, stream: P.Stream, before: Orders, o: OrderId, requested: P.PositiveShares,
                       terms: O.Terms, session: O.Session, world: World) returns (later: H.Hedge)
    requires T.Reachable(H.SERIALIZED, h) && Mirrors(h, stream, before) && o !in h.claimed && o !in before
    requires P.Send(stream, ClaimFor(o, requested, terms)).Ok?
    ensures var order := Offered(o, requested, terms, session, world);
            var claimed := P.After(stream, ClaimFor(o, requested, terms));
            Follows(h, later) && Mirrors(later, Dispatched(claimed, order, o), before[o := order])
  {
    var order := Offered(o, requested, terms, session, world);
    ClaimIsKnown(h);
    var offered := OfferIsRun(h, stream, before, o, requested, terms, session, world);
    P.ClaimEffect(stream, ClaimFor(o, requested, terms));
    AnswerSettles(O.Pending(terms, requested, session), world, o);
    later := FinalizeIsRun(h, offered, P.After(stream, ClaimFor(o, requested, terms)), before[o := order]);
  }
}
