/**
 Sizes over whole runs: an order the broker accepted has the size of the answer that was
 committed for it, and that is what a complete fill of it books. And what each finalizing
 job does when nothing interferes.
 */
module HedgeFills {
  import opened Common
  import opened HedgeClaims
  import P = Positions
  import O = OffchainOrders
  import L = OrderLifecycle
  import T = HedgeTheorems

  /** The order went to the broker under the terms of the answer committed for it. */
  predicate SizedByAnswer(order: O.Order, answer: Option<BrokerReply>)
  {
    match order
    case Pending(_, _, _) => answer == None
    case Submitted(_, shares, session) => answer == Some(Accepted(shares, session))
    case PartiallyFilled(_, shares, session, _, _) => answer == Some(Accepted(shares, session))
    case Cancelling(_, shares, session, _) => answer == Some(Accepted(shares, session))
    case Filled(_, shares) => answer.Some? && answer.value.Accepted? && answer.value.shares == shares
    case Cancelled(_, shares, _) => answer.Some? && answer.value.Accepted? && answer.value.shares == shares
    case Failed(_, shares, retained, reachedBroker) =>
      if reachedBroker then answer.Some? && answer.value.Accepted? && answer.value.shares == shares
      else retained == None && (answer == None || answer == Some(Refused))
  }

  function AnswerOf(h: Hedge, o: OrderId): Option<BrokerReply>
  {
    if o in h.answers then Some(h.answers[o]) else None
  }

  predicate Sized(h: Hedge)
  {
    && (forall o :: o in h.answers ==> o in h.orders && (o, h.answers[o]) in h.replies)
    && (forall o :: o in h.orders ==> SizedByAnswer(h.orders[o], AnswerOf(h, o)))
  }

  /** A command of the poll, fill and rejection jobs and the cancel sweep never moves an
      order out of the terms of its answer. */
  lemma RuntimeKeepsSize(order: O.Order, command: O.Command, answer: Option<BrokerReply>)
    requires Runtime(command) && SizedByAnswer(order, answer)
    ensures SizedByAnswer(O.After(order, command), answer)
  {
    match command
    case UpdatePartialFill(filled, price) => L.PartialFill(order, filled, price);
    case CompleteFill => L.Endings(order);
    case ConfirmCancellation => L.Endings(order);
    case MarkFailed => L.Endings(order);
    case CancelOrder(status, reply) => CancelKeepsSize(order, status, reply, answer);
  }

  lemma CancelKeepsSize(order: O.Order, status: Option<O.BrokerState>, reply: O.CancelReply,
                        answer: Option<BrokerReply>)
    requires SizedByAnswer(order, answer)
    ensures SizedByAnswer(O.After(order, O.CancelOrder(status, reply)), answer)
  {
    if order.Submitted? || order.PartiallyFilled? {
      L.CancelWorking(order);
      match status
      case Some(PartiallyDone(filled, price)) => L.CancelPartlyDone(order, filled, price);
      case Some(Stopped(filled, price)) => L.CancelEnded(order, filled, price, reply);
      case Some(Rejected(Some(filled), price)) => L.CancelEnded(order, filled, price, reply);
      case Some(Rejected(None, price)) => RejectedKeepsSize(order, price, reply);
      case Some(Done) => L.CancelDone(order, reply);
      case _ =>
    } else {
      L.CancelElsewhere(order, status, reply);
    }
  }

  /** A rejection reported without any fill fails the order with the fill on record. */
  lemma RejectedKeepsSize(order: O.Order, price: Option<real>, reply: O.CancelReply)
    requires order.Submitted? || order.PartiallyFilled?
    ensures O.Send(Some(order), O.CancelOrder(Some(O.Rejected(None, price)), reply)) ==
            Some(O.Failed(order.terms, order.shares, L.OnRecord(order), true))
  {
    O.ApplyOne(Some(order), O.FailedEvent);
  }

  lemma AnswerSizes(order: O.Order, reply: BrokerReply, answer: Option<BrokerReply>)
    requires SizedByAnswer(order, answer)
    ensures SizedByAnswer(O.After(order, ReplyCommand(reply)), if order.Pending? then Some(reply) else answer)
  {
    match reply
    case Accepted(shares, session) => L.BrokerAnswer(order, shares, session);
    case Refused => L.BrokerAnswer(order, 1.0, O.Regular);
  }

  lemma CommitKeepsSized(h: Hedge, action: Action)
    requires Sized(h) && action.CommitReply?
    ensures Sized(Apply(SERIALIZED, h, action))
  {
    var o := action.order;
    if o in h.orders { AnswerSizes(h.orders[o], action.reply, AnswerOf(h, o)); }
  }

  /** An order write of a running job that keeps the order within its answer. */
  lemma WriteKeepsSized(h: Hedge, o: OrderId, order: O.Order)
    requires Sized(h) && o in h.orders && SizedByAnswer(order, AnswerOf(h, o))
    ensures Sized(h.(orders := h.orders[o := order]))
  {
  }

  lemma CommandKeepsSized(h: Hedge, action: Action)
    requires Sized(h) && action.OrderCommand?
    ensures Sized(Apply(SERIALIZED, h, action))
  {
    var o, command := action.order, action.orderCommand;
    if o in h.orders && Runtime(command) {
      RuntimeKeepsSize(h.orders[o], command, AnswerOf(h, o));
      WriteKeepsSized(h, o, O.After(h.orders[o], command));
    }
  }

  lemma MarkKeepsSized(h: Hedge, action: Action)
    requires Sized(h) && (action.MarkRejected? || action.MarkFilled?)
    ensures Sized(Apply(SERIALIZED, h, action))
  {
    var o := action.order;
    if o in h.orders {
      var command := if action.MarkRejected? then O.MarkFailed else O.CompleteFill;
      RuntimeKeepsSize(h.orders[o], command, AnswerOf(h, o));
      WriteKeepsSized(h, o, O.After(h.orders[o], command));
    }
  }

  lemma QuietKeepsSized(h: Hedge, action: Action)
    requires Sized(h) && !action.CommitReply? && !action.OrderCommand? && !action.MarkRejected? && !action.MarkFilled?
    ensures Sized(Apply(SERIALIZED, h, action))
  {
  }

  lemma ApplyKeepsSized(h: Hedge, action: Action)
    requires Sized(h)
    ensures Sized(Apply(SERIALIZED, h, action))
  {
    match action
    case CommitReply(_, _) => CommitKeepsSized(h, action);
    case OrderCommand(_, _) => CommandKeepsSized(h, action);
    case MarkRejected(_, _) => MarkKeepsSized(h, action);
    case MarkFilled(_, _) => MarkKeepsSized(h, action);
    case _ => QuietKeepsSized(h, action);
  }

  lemma {:induction false} EveryRunIsSized(actions: seq<Action>)
    ensures Sized(Run(SERIALIZED, actions))
  {
    if actions != [] {
      var before := actions[..|actions| - 1];
      EveryRunIsSized(before);
      ApplyKeepsSized(Run(SERIALIZED, before), actions[|actions| - 1]);
    }
  }

  /** Over every run: a released claim whose order was filled adds to the hedge total the
      signed quantity of the broker's acceptance that was committed for it. */
  lemma FilledBooksTheAcceptedQuantity(actions: seq<Action>, o: OrderId)
    requires var h := Run(SERIALIZED, actions); o in h.released && o in h.orders && h.orders[o].Filled?
    ensures var h := Run(SERIALIZED, actions);
            && o in h.answers && h.answers[o].Accepted? && (o, h.answers[o]) in h.replies
            && var quantity: real := h.answers[o].shares;
               Owed(h.orders, o) == if h.orders[o].terms.direction == Buy then quantity else -quantity
  {
    EveryRunIsSized(actions);
    L.Worth(Run(SERIALIZED, actions).orders[o]);
  }

  // ----- The finalizing jobs, uninterrupted -----

  /** The fill job, run without interference on a claimed order with the broker: the order
      is filled, the claim gone, and its whole size booked. */
  lemma FillJobFinalizes(h: Hedge, o: OrderId)
    requires P.Reached(h.position) && ClaimOf(h) == Some(o) && o in h.orders && h.orders[o].Live()
    ensures var loaded := h.orders[o];
            var after := RunFrom(SERIALIZED, h, [LoadOrder(o), MarkFilled(o, loaded), CloseFilled(o, loaded)]);
            && after.orders == h.orders[o := O.Filled(loaded.terms, loaded.shares)] && ClaimOf(after) == None
            && P.HedgeTotal(after.position.log) ==
               P.HedgeTotal(h.position.log) + Signed(loaded.terms.direction, loaded.shares)
  {
    var loaded := h.orders[o];
    ThreeActions(h, LoadOrder(o), MarkFilled(o, loaded), CloseFilled(o, loaded));
    FillJobWrites(h, o);
    P.CloseEffect(h.position, P.CompleteOffChainOrder(o, loaded.shares, loaded.terms.direction), o);
  }

  lemma FillJobWrites(h: Hedge, o: OrderId)
    requires o in h.orders && h.orders[o].Live()
    ensures var loaded := h.orders[o];
            var marked := Apply(SERIALIZED, Apply(SERIALIZED, h, LoadOrder(o)), MarkFilled(o, loaded));
            && marked.position == h.position && (o, loaded) in marked.filling
            && marked.orders == h.orders[o := O.Filled(loaded.terms, loaded.shares)]
  {
    L.Endings(h.orders[o]);
  }

  /** The rejection job likewise: the order fails, the claim is gone, and exactly the fill
      on record is booked. */
  lemma RejectionJobFinalizes(h: Hedge, o: OrderId)
    requires P.Reached(h.position) && ClaimOf(h) == Some(o) && o in h.orders && h.orders[o].Live()
    requires O.OnlyPricedFills(h.orders[o])
    ensures var loaded := h.orders[o];
            var after := RunFrom(SERIALIZED, h, [LoadOrder(o), MarkRejected(o, loaded), CloseRejected(o, loaded)]);
            && after.orders == h.orders[o := O.Failed(loaded.terms, loaded.shares, O.RetainedBy(loaded), true)]
            && ClaimOf(after) == None
            && P.HedgeTotal(after.position.log) ==
               P.HedgeTotal(h.position.log) + Signed(loaded.terms.direction, O.PricedFill(loaded))
  {
    var loaded := h.orders[o];
    ThreeActions(h, LoadOrder(o), MarkRejected(o, loaded), CloseRejected(o, loaded));
    RejectionJobWrites(h, o);
    P.CloseEffect(h.position, O.RejectionCommand(loaded, o).value, o);
  }

  lemma RejectionJobWrites(h: Hedge, o: OrderId)
    requires o in h.orders && h.orders[o].Live()
    ensures var loaded := h.orders[o];
            var marked := Apply(SERIALIZED, Apply(SERIALIZED, h, LoadOrder(o)), MarkRejected(o, loaded));
            && marked.position == h.position && (o, loaded) in marked.rejecting
            && marked.orders == h.orders[o := O.Failed(loaded.terms, loaded.shares, O.RetainedBy(loaded), true)]
  {
    L.Endings(h.orders[o]);
  }

  lemma ThreeActions(h: Hedge, first: Action, second: Action, third: Action)
    ensures RunFrom(SERIALIZED, h, [first, second, third]) ==
            Apply(SERIALIZED, Apply(SERIALIZED, Apply(SERIALIZED, h, first), second), third)
  {
    assert [first, second, third][..2] == [first, second] && [first, second][..1] == [first] && [first][..0] == [];
    assert RunFrom(SERIALIZED, h, [first]) == Apply(SERIALIZED, RunFrom(SERIALIZED, h, []), first);
    assert RunFrom(SERIALIZED, h, [first, second]) == Apply(SERIALIZED, RunFrom(SERIALIZED, h, [first]), second);
  }
}
