/**
 The promises of fill accounting over whole runs: exactly once under crashes,
 self-healing on redelivery, and the one interleaving that breaks exactly-once.
 */
module FillTheorems {
  import opened Common
  import opened FillAccounting
  import T = OnChainTrades
  import P = Positions
  import D = PositionDetails

  // ----- Exactly once -----

  /** The trades a position's log applied, in order. */
  function LoggedTrades(log: seq<P.Event>): seq<TradeId>
  {
    if log == [] then []
    else
      var event := log[|log| - 1];
      LoggedTrades(log[..|log| - 1]) + (if event.OnChainOrderFilled? then [event.trade] else [])
  }

  /** The signed sum of what the chain says about a list of trades. */
  function SumOf(setting: Setting, ids: seq<TradeId>): real
  {
    if ids == [] then 0.0
    else
      var (amount, direction, _) := setting.Fill(ids[|ids| - 1]);
      SumOf(setting, ids[..|ids| - 1]) + Signed(direction, amount)
  }

  lemma {:induction false} LogSums(setting: Setting, log: seq<P.Event>)
    requires P.FillsAgree(log, setting.Fill)
    ensures P.OnchainTotal(log) == SumOf(setting, LoggedTrades(log))
  {
    if log != [] {
      var shorter, event := log[..|log| - 1], log[|log| - 1];
      LogSums(setting, shorter);
      if event.OnChainOrderFilled? {
        assert LoggedTrades(log)[..|LoggedTrades(shorter)|] == LoggedTrades(shorter);
      } else {
        assert LoggedTrades(log) == LoggedTrades(shorter);
      }
    }
  }

  lemma {:induction false} LoggedTradesAreTheFills(log: seq<P.Event>)
    ensures forall t :: t in LoggedTrades(log) <==> P.Filled(log, t)
    ensures P.UniqueFills(log) ==> Distinct(LoggedTrades(log))
  {
    if log != [] {
      var shorter, event := log[..|log| - 1], log[|log| - 1];
      LoggedTradesAreTheFills(shorter);
      assert log == shorter + [event];
      var nothing := (t: TradeId) => (0.0, Buy, 0.0);
      if event.OnChainOrderFilled? {
        P.FillTail(shorter, event, nothing);
        assert P.UniqueFills(log) ==> P.UniqueFills(shorter);
      } else {
        P.QuietTail(shorter, event, nothing);
        assert LoggedTrades(log) == LoggedTrades(shorter);
      }
    }
  }

  /** Over every run in which deliveries of one trade follow one another, each cut off
      after any step and interleaved freely with other trades and hedging commands:
      every trade enters its position's log at most once, the onchain part of the
      position is the signed sum of exactly the logged trades, and net differs from it
      only by finalized hedges and manual adjustments. */
  lemma ExactlyOnce(setting: Setting, actions: seq<Action>, symbol: Symbol)
    requires Run(setting, true, actions).db.StreamOf(symbol).live.Some?
    ensures var s := Run(setting, true, actions);
            var stream := s.db.StreamOf(symbol);
            var ids := LoggedTrades(stream.log);
            && Distinct(ids)
            && (forall t :: t in ids <==> setting.SymbolOf(t) == symbol && Logged(setting, s.db, t))
            && stream.live.value.accumulatedLong - stream.live.value.accumulatedShort == SumOf(setting, ids)
            && stream.live.value.net == SumOf(setting, ids) + P.HedgeTotal(stream.log) + P.AdjustmentTotal(stream.log)
  {
    var s := Run(setting, true, actions);
    var stream := s.db.StreamOf(symbol);
    EverySerialRunIsSound(setting, actions);
    P.ReachedIsSound(stream);
    LogSums(setting, stream.log);
    LoggedTradesAreTheFills(stream.log);
  }

  // ----- Self-healing -----

  /** A delivery running alone, cut off after `steps` durable steps. */
  function RunFor(setting: Setting, db: Db, t: TradeId, pc: Pc, clock: Pc -> Time, steps: nat): Move
    decreases steps
  {
    if steps == 0 then Move(db, Some(pc))
    else
      var move := Advance(setting, db, t, pc, clock(pc));
      match move.next
      case None => move
      case Some(next) => RunFor(setting, move.db, t, next, clock, steps - 1)
  }

  const WHOLE: nat := 8

  ghost predicate Consistent(setting: Setting, db: Db)
  {
    StoresAgree(setting, db) && forall symbol :: P.UniqueFills(db.StreamOf(symbol).log)
  }

  predicate Accounted(setting: Setting, db: Db, t: TradeId)
  {
    Logged(setting, db, t) && db.Marked(t) && !Pending(setting, db, t)
  }

  /** The delivery data the source insists on: a block timestamp, and a log index the
      database can hold. */
  predicate Deliverable(setting: Setting, t: TradeId)
  {
    setting.facts(t).timestamped && t.logIndex <= I64_MAX
  }

  lemma StepKeepsConsistent(setting: Setting, db: Db, t: TradeId, pc: Pc, now: Time)
    requires Consistent(setting, db) && DeliverySound(setting, db, Delivery(t, pc, false))
    ensures var move := Advance(setting, db, t, pc, now);
            && Consistent(setting, move.db)
            && (move.next.Some? ==> DeliverySound(setting, move.db, Delivery(t, move.next.value, false)))
  {
    AdvanceKeeps(setting, db, Delivery(t, pc, false), now);
    AdvanceKeepsUnique(setting, db, Delivery(t, pc, false), now);
  }

  /** Cut off anywhere, a delivery leaves the stores consistent. */
  lemma {:induction false} CutOffKeepsConsistent(setting: Setting, db: Db, t: TradeId, pc: Pc, clock: Pc -> Time,
                                                 steps: nat)
    requires Consistent(setting, db) && DeliverySound(setting, db, Delivery(t, pc, false))
    ensures Consistent(setting, RunFor(setting, db, t, pc, clock, steps).db)
    decreases steps
  {
    if steps > 0 {
      var move := Advance(setting, db, t, pc, clock(pc));
      StepKeepsConsistent(setting, db, t, pc, clock(pc));
      if move.next.Some? {
        CutOffKeepsConsistent(setting, move.db, t, move.next.value, clock, steps - 1);
      }
    }
  }

  /** With enough steps left it ends, and accounts for its trade. */
  lemma {:induction false} WholeDeliveryAccounts(setting: Setting, db: Db, t: TradeId, pc: Pc, clock: Pc -> Time,
                                                 steps: nat)
    requires Consistent(setting, db) && DeliverySound(setting, db, Delivery(t, pc, false))
    requires Deliverable(setting, t) && steps >= Rank(pc)
    ensures RunFor(setting, db, t, pc, clock, steps).next.None?
    ensures Accounted(setting, RunFor(setting, db, t, pc, clock, steps).db, t)
    decreases steps
  {
    var move := Advance(setting, db, t, pc, clock(pc));
    if move.next.Some? {
      StepKeepsConsistent(setting, db, t, pc, clock(pc));
      WholeDeliveryAccounts(setting, move.db, t, move.next.value, clock, steps - 1);
    } else {
      StopsOnlyAccounted(setting, db, t, pc, clock(pc));
    }
  }

  lemma StopsOnlyAccounted(setting: Setting, db: Db, t: TradeId, pc: Pc, now: Time)
    requires Consistent(setting, db) && DeliverySound(setting, db, Delivery(t, pc, false)) && Deliverable(setting, t)
    requires Advance(setting, db, t, pc, now).next.None?
    ensures Accounted(setting, Advance(setting, db, t, pc, now).db, t)
  {
    var stream := db.StreamOf(setting.SymbolOf(t));
    if pc == Acknowledge {
      P.AcknowledgeEffect(stream, setting.AcknowledgeCommand(t), setting.Fill);
    } else if pc == Settle {
      AdvanceKeeps(setting, db, Delivery(t, pc, false), now);
      P.OtherEffect(stream, P.SettleOnChainFill(t), setting.Fill);
    }
  }

  lemma {:induction false} AccountedStaysPut(setting: Setting, db: Db, t: TradeId, clock: Pc -> Time, steps: nat)
    requires Consistent(setting, db) && Accounted(setting, db, t)
    ensures RunFor(setting, db, t, Load, clock, steps).db == db
  {
    if steps > 0 && setting.facts(t).timestamped {
      SettledAlready(setting, db, t);
      assert setting.SymbolOf(t) in db.positions;
      var settle := Advance(setting, db, t, Settle, clock(Settle));
      assert settle == Move(db, None);
      if steps > 1 {
        assert RunFor(setting, db, t, Settle, clock, steps - 1) == settle;
      }
    }
  }

  // ----- What a delivery writes to the position -----

  /** What the first whole delivery of a trade adds to the log of its position. */
  function Written(setting: Setting, db: Db, t: TradeId): seq<P.Event>
  {
    var terms, log := setting.facts(t).terms, db.StreamOf(setting.SymbolOf(t)).log;
    (if log == [] then [P.Initialized(setting.threshold)] else []) +
    [P.OnChainOrderFilled(t, terms.amount, terms.direction, terms.priceUsdc), P.OnChainFillApplied(t)]
  }

  /** The position write of an unlogged trade. */
  lemma AcknowledgeWrites(setting: Setting, db: Db, t: TradeId, now: Time)
    requires Consistent(setting, db) && !Logged(setting, db, t)
    ensures var move := Advance(setting, db, t, Acknowledge, now);
            && move.next == Some(Mark) && move.db.trades == db.trades && Pending(setting, move.db, t)
            && move.db.StreamOf(setting.SymbolOf(t)).log ==
               db.StreamOf(setting.SymbolOf(t)).log + Written(setting, db, t)
  {
    var terms, stream := setting.facts(t).terms, db.StreamOf(setting.SymbolOf(t));
    D.FillIsLogged(stream, setting.threshold, t, terms.amount, terms.direction, terms.priceUsdc);
    var opening := if stream.log == [] then [P.Initialized(setting.threshold)] else [];
    var fill := [P.OnChainOrderFilled(t, terms.amount, terms.direction, terms.priceUsdc), P.OnChainFillApplied(t)];
    assert stream.log + opening + fill == stream.log + (opening + fill);
  }

  /** The settle of a trade pending behind its marker, or the marker and then the settle. */
  lemma {:induction false} SettleWrites(setting: Setting, db: Db, t: TradeId, pc: Pc, clock: Pc -> Time, steps: nat)
    requires P.Reached(db.StreamOf(setting.SymbolOf(t))) && Pending(setting, db, t) && t in db.trades
    requires (pc == Mark || pc == Settle) && steps >= Rank(pc)
    ensures RunFor(setting, db, t, pc, clock, steps).db.StreamOf(setting.SymbolOf(t)).log ==
            db.StreamOf(setting.SymbolOf(t)).log + [P.OnChainFillSettled(t)]
    decreases steps
  {
    if pc == Mark {
      var move := Advance(setting, db, t, Mark, clock(Mark));
      assert move.next == Some(Settle) && move.db.positions == db.positions;
      SettleWrites(setting, move.db, t, Settle, clock, steps - 1);
    } else {
      D.SettleIsLogged(db.StreamOf(setting.SymbolOf(t)), t);
    }
  }

  /** Before its position write a delivery writes to no position. */
  lemma BeforeWriteKeepsPositions(setting: Setting, db: Db, t: TradeId, pc: Pc, now: Time)
    requires Deliverable(setting, t) && !Logged(setting, db, t) && !db.Marked(t)
    requires DeliverySound(setting, db, Delivery(t, pc, false)) && Rank(pc) > Rank(Acknowledge)
    ensures var move := Advance(setting, db, t, pc, now);
            && move.db.positions == db.positions
            && move.next.Some? && Rank(move.next.value) >= Rank(Acknowledge)
  {
  }

  lemma SamePositionsSameLog(setting: Setting, db: Db, after: Db, t: TradeId)
    requires after.positions == db.positions
    ensures after.StreamOf(setting.SymbolOf(t)) == db.StreamOf(setting.SymbolOf(t))
    ensures Logged(setting, after, t) == Logged(setting, db, t) && Written(setting, after, t) == Written(setting, db, t)
  {
  }

  lemma WriteAndSettle(setting: Setting, db: Db, t: TradeId, clock: Pc -> Time, steps: nat)
    requires Consistent(setting, db) && !Logged(setting, db, t) && t in db.trades && steps >= Rank(Acknowledge)
    ensures RunFor(setting, db, t, Acknowledge, clock, steps).db.StreamOf(setting.SymbolOf(t)).log ==
            db.StreamOf(setting.SymbolOf(t)).log + Written(setting, db, t) + [P.OnChainFillSettled(t)]
  {
    AcknowledgeWrites(setting, db, t, clock(Acknowledge));
    StepKeepsConsistent(setting, db, t, Acknowledge, clock(Acknowledge));
    SettleWrites(setting, Advance(setting, db, t, Acknowledge, clock(Acknowledge)).db, t, Mark, clock, steps - 1);
  }

  lemma {:induction false} UnloggedWrites(setting: Setting, db: Db, t: TradeId, pc: Pc, clock: Pc -> Time, steps: nat)
    requires Consistent(setting, db) && DeliverySound(setting, db, Delivery(t, pc, false))
    requires Deliverable(setting, t) && !Logged(setting, db, t)
    requires Rank(pc) >= Rank(Acknowledge) && steps >= Rank(pc)
    ensures RunFor(setting, db, t, pc, clock, steps).db.StreamOf(setting.SymbolOf(t)).log ==
            db.StreamOf(setting.SymbolOf(t)).log + Written(setting, db, t) + [P.OnChainFillSettled(t)]
    decreases steps
  {
    if pc == Acknowledge {
      WriteAndSettle(setting, db, t, clock, steps);
    } else {
      var move := Advance(setting, db, t, pc, clock(pc));
      StepKeepsConsistent(setting, db, t, pc, clock(pc));
      BeforeWriteKeepsPositions(setting, db, t, pc, clock(pc));
      SamePositionsSameLog(setting, db, move.db, t);
      UnloggedWrites(setting, move.db, t, move.next.value, clock, steps - 1);
    }
  }

  /** The first whole delivery of a trade writes exactly this to the log of its position:
      the configured threshold if the symbol is new, the fill as observed onchain, the note
      that it was applied, and the note that it is settled. */
  lemma FirstDeliveryWrites(setting: Setting, actions: seq<Action>, t: TradeId, clock: Pc -> Time)
    requires Deliverable(setting, t) && !Logged(setting, Run(setting, true, actions).db, t)
    ensures var db, terms := Run(setting, true, actions).db, setting.facts(t).terms;
            var log := db.StreamOf(setting.SymbolOf(t)).log;
            RunFor(setting, db, t, Load, clock, WHOLE).db.StreamOf(setting.SymbolOf(t)).log ==
            log + (if log == [] then [P.Initialized(setting.threshold)] else []) +
            [P.OnChainOrderFilled(t, terms.amount, terms.direction, terms.priceUsdc),
             P.OnChainFillApplied(t), P.OnChainFillSettled(t)]
  {
    var db, terms := Run(setting, true, actions).db, setting.facts(t).terms;
    EverySerialRunIsSound(setting, actions);
    UnloggedWrites(setting, db, t, Load, clock, WHOLE);
    var log := db.StreamOf(setting.SymbolOf(t)).log;
    var opening := if log == [] then [P.Initialized(setting.threshold)] else [];
    var fill := [P.OnChainOrderFilled(t, terms.amount, terms.direction, terms.priceUsdc), P.OnChainFillApplied(t)];
    assert log + (opening + fill) + [P.OnChainFillSettled(t)] == log + opening + (fill + [P.OnChainFillSettled(t)]);
  }

  /** From every state reachable through cut-off deliveries, one uninterrupted delivery
      ends with the trade logged exactly once, marked and out of the pending set; and
      every later delivery, wherever it is cut off, changes nothing at all. */
  lemma SelfHealing(setting: Setting, actions: seq<Action>, t: TradeId, clock: Pc -> Time, later: Pc -> Time,
                    steps: nat)
    requires Deliverable(setting, t)
    ensures var healed := RunFor(setting, Run(setting, true, actions).db, t, Load, clock, WHOLE).db;
            && Consistent(setting, healed) && Accounted(setting, healed, t)
            && RunFor(setting, healed, t, Load, later, steps).db == healed
  {
    var db := Run(setting, true, actions).db;
    EverySerialRunIsSound(setting, actions);
    CutOffKeepsConsistent(setting, db, t, Load, clock, WHOLE);
    WholeDeliveryAccounts(setting, db, t, Load, clock, WHOLE);
    AccountedStaysPut(setting, RunFor(setting, db, t, Load, clock, WHOLE).db, t, later, steps);
  }

  /** The trade is accounted for, and whoever delivers it stands before its load or its
      settle. */
  predicate AtRest(setting: Setting, s: System, t: TradeId)
  {
    && Accounted(setting, s.db, t)
    && forall id :: id in s.live && s.live[id].trade == t ==> s.live[id].pc == Load || s.live[id].pc == Settle
  }

  /** The two steps a delivery of an accounted trade can take write nothing. */
  lemma RestingStepIsIdle(setting: Setting, db: Db, t: TradeId, pc: Pc, now: Time)
    requires Accounted(setting, db, t) && (pc == Load || pc == Settle)
    ensures var move := Advance(setting, db, t, pc, now);
            move.db == db && (move.next.Some? ==> move.next == Some(Settle))
  {
    if pc == Settle {
      SettledAlready(setting, db, t);
      assert setting.SymbolOf(t) in db.positions;
    }
  }

  lemma StepKeepsAtRest(setting: Setting, serial: bool, s: System, id: nat, now: Time, t: TradeId)
    requires Inv(setting, s) && AtRest(setting, s, t) && id in s.live
    ensures AtRest(setting, Apply(setting, serial, s, Step(id, now)), t)
    ensures s.live[id].trade == t ==> Apply(setting, serial, s, Step(id, now)).db == s.db
  {
    if s.live[id].trade == t {
      RestingStepIsIdle(setting, s.db, t, s.live[id].pc, now);
    } else {
      StepLeavesOthers(setting, s.db, s.live[id], now, t);
    }
  }

  lemma ApplyKeepsAtRest(setting: Setting, serial: bool, s: System, action: Action, t: TradeId)
    requires Inv(setting, s) && AtRest(setting, s, t)
    ensures AtRest(setting, Apply(setting, serial, s, action), t)
  {
    match action
    case Start(_, _) =>
    case Crash(_) =>
    case Step(id, now) => if id in s.live { StepKeepsAtRest(setting, serial, s, id, now, t); }
    case OtherCommand(symbol, command) =>
      if Apply(setting, serial, s, action) != s { CommandLeavesTrades(setting, s.db, symbol, command, t); }
  }

  /** Once a trade is accounted for and no delivery of it is running, every continuation,
      with any deliveries of it and of other trades, crashes and hedging commands, keeps
      it accounted for, and no step of any delivery of it writes anything. */
  lemma {:induction false} AccountedForGood(setting: Setting, serial: bool, start: System, actions: seq<Action>,
                                            t: TradeId, id: nat, now: Time)
    requires Inv(setting, start) && AtRest(setting, start, t)
    ensures var s := RunFrom(setting, serial, start, actions);
            && Inv(setting, s) && AtRest(setting, s, t)
            && (id in s.live && s.live[id].trade == t ==> Apply(setting, serial, s, Step(id, now)).db == s.db)
    decreases |actions|
  {
    if actions != [] {
      var before, action := actions[..|actions| - 1], actions[|actions| - 1];
      AccountedForGood(setting, serial, start, before, t, id, now);
      ApplyKeepsInv(setting, serial, RunFrom(setting, serial, start, before), action);
      ApplyKeepsAtRest(setting, serial, RunFrom(setting, serial, start, before), action, t);
    }
    var s := RunFrom(setting, serial, start, actions);
    if id in s.live {
      StepKeepsAtRest(setting, serial, s, id, now, t);
    }
  }

  /** One step of a delivery running alone among waiting deliveries of other trades. */
  lemma AloneStepKeepsInv(setting: Setting, s: System, t: TradeId, pc: Pc, now: Time)
    requires Inv(setting, s) && !Delivering(s, t) && DeliverySound(setting, s.db, Delivery(t, pc, false))
    ensures var move := Advance(setting, s.db, t, pc, now);
            && Inv(setting, System(move.db, s.live))
            && (move.next.Some? ==> DeliverySound(setting, move.db, Delivery(t, move.next.value, false)))
  {
    var move := Advance(setting, s.db, t, pc, now);
    AdvanceKeeps(setting, s.db, Delivery(t, pc, false), now);
    forall x | x in s.live ensures DeliverySound(setting, move.db, s.live[x]) {
      OthersStaySound(setting, s.db, move.db, if pc == Settle then {t} else {}, s.live[x]);
    }
  }

  /** A delivery running alone keeps the waiting deliveries of other trades sound. */
  lemma {:induction false} AloneKeepsInv(setting: Setting, s: System, t: TradeId, pc: Pc, clock: Pc -> Time, steps: nat)
    requires Inv(setting, s) && !Delivering(s, t) && DeliverySound(setting, s.db, Delivery(t, pc, false))
    ensures Inv(setting, System(RunFor(setting, s.db, t, pc, clock, steps).db, s.live))
    decreases steps
  {
    if steps > 0 {
      var move := Advance(setting, s.db, t, pc, clock(pc));
      AloneStepKeepsInv(setting, s, t, pc, clock(pc));
      if move.next.Some? {
        AloneKeepsInv(setting, System(move.db, s.live), t, move.next.value, clock, steps - 1);
      }
    }
  }

  /** From every reachable state in which no delivery of a trade is running, one whole
      delivery accounts for it for good, whatever runs afterwards. */
  lemma HealedForGood(setting: Setting, actions: seq<Action>, t: TradeId, clock: Pc -> Time,
                      more: seq<Action>, id: nat, now: Time)
    requires Deliverable(setting, t) && !Delivering(Run(setting, true, actions), t)
    ensures var s := Run(setting, true, actions);
            var healed := System(RunFor(setting, s.db, t, Load, clock, WHOLE).db, s.live);
            var later := RunFrom(setting, true, healed, more);
            && Accounted(setting, later.db, t)
            && (id in later.live && later.live[id].trade == t ==>
                  Apply(setting, true, later, Step(id, now)).db == later.db)
  {
    var s := Run(setting, true, actions);
    var healed := System(RunFor(setting, s.db, t, Load, clock, WHOLE).db, s.live);
    EverySerialRunIsSound(setting, actions);
    WholeDeliveryAccounts(setting, s.db, t, Load, clock, WHOLE);
    AloneKeepsInv(setting, s, t, Load, clock, WHOLE);
    AccountedForGood(setting, true, healed, more, t, id, now);
  }

  // ----- The inputs no delivery can heal -----

  /** Nothing has been applied, and every delivery stands before the position write. */
  predicate Unapplied(setting: Setting, s: System, t: TradeId)
  {
    && !Logged(setting, s.db, t) && !s.db.Marked(t)
    && forall id :: id in s.live && s.live[id].trade == t ==> BeforeWrite(setting, t, s.live[id].pc)
  }

  predicate BeforeWrite(setting: Setting, t: TradeId, pc: Pc)
  {
    pc != Acknowledge && pc != Mark && pc != Settle && (!setting.facts(t).timestamped ==> pc == Load)
  }

  lemma UndeliverableStep(setting: Setting, db: Db, t: TradeId, pc: Pc, now: Time)
    requires !Deliverable(setting, t) && !db.Marked(t) && BeforeWrite(setting, t, pc)
    ensures var move := Advance(setting, db, t, pc, now);
            && move.db.positions == db.positions && !move.db.Marked(t)
            && (move.next.Some? ==> BeforeWrite(setting, t, move.next.value))
  {
  }

  lemma ApplyKeepsUnapplied(setting: Setting, serial: bool, s: System, action: Action, t: TradeId)
    requires Inv(setting, s) && !Deliverable(setting, t) && Unapplied(setting, s, t)
    ensures Unapplied(setting, Apply(setting, serial, s, action), t)
  {
    match action
    case Start(_, _) =>
    case Crash(_) =>
    case Step(id, now) =>
      if id in s.live {
        if s.live[id].trade == t {
          UndeliverableStep(setting, s.db, t, s.live[id].pc, now);
        } else {
          StepLeavesOthers(setting, s.db, s.live[id], now, t);
        }
      }
    case OtherCommand(symbol, command) =>
      if Apply(setting, serial, s, action) != s { CommandLeavesTrades(setting, s.db, symbol, command, t); }
  }

  /** A fill without a block timestamp, or with a log index the database cannot hold, is
      never applied nor marked, in any interleaving of any deliveries. */
  lemma {:induction false} UndeliverableIsNeverApplied(setting: Setting, serial: bool, actions: seq<Action>, t: TradeId)
    requires !Deliverable(setting, t)
    ensures Unapplied(setting, Run(setting, serial, actions), t)
  {
    if actions != [] {
      var before := actions[..|actions| - 1];
      UndeliverableIsNeverApplied(setting, serial, before, t);
      EveryRunKeepsStoresAgreeing(setting, serial, before);
      ApplyKeepsUnapplied(setting, serial, Run(setting, serial, before), actions[|actions| - 1], t);
    }
  }

  // ----- The interleaving that breaks exactly-once -----

  ghost predicate Reachable(setting: Setting, s: System)
  {
    exists actions :: Run(setting, false, actions) == s
  }

  lemma Next(setting: Setting, s: System, action: Action) returns (after: System)
    requires Reachable(setting, s)
    ensures after == Apply(setting, false, s, action) && Reachable(setting, after)
  {
    after := Apply(setting, false, s, action);
    var actions :| Run(setting, false, actions) == s;
    var longer := actions + [action];
    assert longer[..|actions|] == actions;
    assert Run(setting, false, longer) == after;
  }

  const BUY_ONE := Facts(T.FillTerms("AAPL", 1.0, Buy, 1.0, 0, 0), true, None)
  const ONE_SYMBOL := Setting((t: TradeId) => BUY_ONE, P.SharesThreshold(1.0))
  const FIRST := TradeId(1, 0)
  const SECOND := TradeId(2, 0)
  const WITNESSED := T.Trade(BUY_ONE.terms, 0, None, None)

  /** A delivery of a fresh trade loads and witnesses it, unless that was done already. */
  lemma ReachEnrich(s: System, id: nat, t: TradeId) returns (after: System)
    requires Reachable(ONE_SYMBOL, s) && id !in s.live && (t in s.db.trades ==> s.db.trades[t] == WITNESSED)
    ensures Reachable(ONE_SYMBOL, after)
    ensures after.live == s.live[id := Delivery(t, Enrich, false)]
    ensures after.db == s.db.(trades := s.db.trades[t := WITNESSED])
  {
    after := Next(ONE_SYMBOL, s, Start(id, t));
    assert after == System(s.db, s.live[id := Delivery(t, Load, false)]);
    after := Next(ONE_SYMBOL, after, Step(id, 0));
    if t !in s.db.trades {
      assert after.live[id].pc == Witness;
      after := Next(ONE_SYMBOL, after, Step(id, 0));
    }
    assert after.live[id].pc == Enrich;
    assert after.db == s.db.(trades := s.db.trades[t := WITNESSED]);
  }

  /** It reaches its position write two steps later. */
  lemma ReachWrite(s: System, id: nat, t: TradeId) returns (after: System)
    requires Reachable(ONE_SYMBOL, s) && id !in s.live && t.logIndex == 0
    requires !Logged(ONE_SYMBOL, s.db, t) && (t in s.db.trades ==> s.db.trades[t] == WITNESSED)
    ensures Reachable(ONE_SYMBOL, after)
    ensures after.live == s.live[id := Delivery(t, Acknowledge, false)]
    ensures after.db == s.db.(trades := s.db.trades[t := WITNESSED])
  {
    after := ReachEnrich(s, id, t);
    after := Next(ONE_SYMBOL, after, Step(id, 0));
    assert after.live[id].pc == ReadLog;
    after := Next(ONE_SYMBOL, after, Step(id, 0));
  }

  /** The position write of a delivery nobody has guarded against. */
  lemma Write(s: System, id: nat) returns (after: System)
    requires Reachable(ONE_SYMBOL, s) && id in s.live && s.live[id].pc == Acknowledge
    requires P.Reached(s.db.StreamOf("AAPL")) && !P.Guarded(s.db.StreamOf("AAPL"), s.live[id].trade)
    ensures var t := s.live[id].trade;
            && Reachable(ONE_SYMBOL, after) && after.live == s.live[id := Delivery(t, Mark, false)]
            && after.db.trades == s.db.trades
            && after.db.positions ==
               s.db.positions["AAPL" := P.After(s.db.StreamOf("AAPL"), ONE_SYMBOL.AcknowledgeCommand(t))]
  {
    var t := s.live[id].trade;
    P.AcknowledgeEffect(s.db.StreamOf("AAPL"), ONE_SYMBOL.AcknowledgeCommand(t), ONE_SYMBOL.Fill);
    after := Next(ONE_SYMBOL, s, Step(id, 0));
    assert after.live == s.live[id := Delivery(t, Mark, false)];
  }

  /** Mark and settle, the last two steps of a delivery. */
  lemma MarkAndSettle(s: System, id: nat) returns (after: System)
    requires Reachable(ONE_SYMBOL, s) && id in s.live && s.live[id].pc == Mark
    requires s.live[id].trade in s.db.trades && s.db.trades[s.live[id].trade] == WITNESSED
    requires P.Reached(s.db.StreamOf("AAPL"))
    ensures var t := s.live[id].trade;
            && Reachable(ONE_SYMBOL, after)
            && after.live.Keys == s.live.Keys - {id}
            && (forall x :: x in after.live ==>
                after.live[x].trade == s.live[x].trade && after.live[x].pc == s.live[x].pc)
            && after.db.trades == s.db.trades[t := WITNESSED.(acknowledgedAt := Some(0))]
            && after.db.positions == s.db.positions["AAPL" := P.After(s.db.StreamOf("AAPL"), P.SettleOnChainFill(t))]
  {
    var t := s.live[id].trade;
    after := Next(ONE_SYMBOL, s, Step(id, 0));
    assert after.live == s.live[id := Delivery(t, Settle, false)];
    P.OtherEffect(s.db.StreamOf("AAPL"), P.SettleOnChainFill(t), ONE_SYMBOL.Fill);
    after := Next(ONE_SYMBOL, after, Step(id, 0));
  }

  /** Two deliveries of one trade read the log before either writes, and one writes. */
  lemma WrittenBehindReader() returns (s: System)
    ensures Reachable(ONE_SYMBOL, s)
    ensures s.live == map[1 := Delivery(FIRST, Acknowledge, false), 2 := Delivery(FIRST, Mark, false)]
    ensures s.db.trades == map[FIRST := WITNESSED]
    ensures s.db.StreamOf("AAPL") == P.After(P.EMPTY, ONE_SYMBOL.AcknowledgeCommand(FIRST))
  {
    assert Run(ONE_SYMBOL, false, []) == INITIAL;
    P.EmptyIsReached();
    s := ReachWrite(INITIAL, 1, FIRST);
    s := ReachWrite(s, 2, FIRST);
    s := Write(s, 2);
  }

  /** The stream of a trade acknowledged once and then settled. */
  lemma AcknowledgedAndSettled()
    ensures var applied := P.After(P.EMPTY, ONE_SYMBOL.AcknowledgeCommand(FIRST));
            var settled := P.After(applied, P.SettleOnChainFill(FIRST));
            && P.Reached(applied) && P.Reached(settled) && P.PendingIn(settled) == {}
            && forall t :: P.Filled(settled.log, t) <==> t == FIRST
  {
    var ack := ONE_SYMBOL.AcknowledgeCommand(FIRST);
    var applied := P.After(P.EMPTY, ack);
    P.EmptyIsReached();
    P.ReachedAfter(P.EMPTY, ack);
    P.AcknowledgeEffect(P.EMPTY, ack, ONE_SYMBOL.Fill);
    P.ReachedAfter(applied, P.SettleOnChainFill(FIRST));
    P.OtherEffect(applied, P.SettleOnChainFill(FIRST), ONE_SYMBOL.Fill);
  }

  /** It runs to the end: the other still stands before its write. */
  lemma SettledBehindReader() returns (s: System)
    ensures Reachable(ONE_SYMBOL, s) && s.live.Keys == {1} && s.live[1].trade == FIRST && s.live[1].pc == Acknowledge
    ensures s.db.trades.Keys == {FIRST}
    ensures var stream := s.db.StreamOf("AAPL");
            && P.Reached(stream) && P.PendingIn(stream) == {}
            && forall t :: P.Filled(stream.log, t) <==> t == FIRST
  {
    AcknowledgedAndSettled();
    s := WrittenBehindReader();
    s := MarkAndSettle(s, 2);
  }

  /** Another trade then takes the last-acknowledged slot, and the waiting delivery's
      write applies the first trade a second time. */
  lemma ConcurrentDeliveriesCanApplyTwice() returns (s: System)
    ensures Reachable(ONE_SYMBOL, s) && 1 in s.live && AppliesTwice(ONE_SYMBOL, s, 1)
  {
    var ack, other := ONE_SYMBOL.AcknowledgeCommand(FIRST), ONE_SYMBOL.AcknowledgeCommand(SECOND);
    s := SettledBehindReader();
    var settled := s.db.StreamOf("AAPL");
    P.ReachedIsSound(settled);
    assert P.Filled(settled.log, FIRST) && settled.live.Some?;
    s := ReachWrite(s, 3, SECOND);
    P.AcknowledgeEffect(settled, other, ONE_SYMBOL.Fill);
    s := Write(s, 3);
    var displaced := P.After(settled, other);
    P.ReachedAfter(settled, other);
    assert s.db.StreamOf("AAPL") == displaced;
    P.SlotHoldsNewest(settled, other);
    P.AcknowledgeEffect(displaced, ack, ONE_SYMBOL.Fill);
  }
}
