/**
 Exactly-once accounting of onchain fills. A delivery of one fill is a chain of
 separate durable steps on two aggregates; it may stop after any of them and be
 delivered again from the top, while other deliveries run in between.
 */
module FillAccounting {
  import opened Common
  import T = OnChainTrades
  import P = Positions

  /** What the bot derives from the emitted chain event; the same on every delivery. */
  datatype Facts = Facts(
    terms: T.FillTerms,
    timestamped: bool,
    gas: Option<T.Enrichment>)

  datatype Setting = Setting(facts: TradeId -> Facts, threshold: P.Threshold)
  {
    function SymbolOf(t: TradeId): Symbol { facts(t).terms.symbol }

    function Fill(t: TradeId): (real, Direction, real)
    {
      (facts(t).terms.amount, facts(t).terms.direction, facts(t).terms.priceUsdc)
    }

    function AcknowledgeCommand(t: TradeId): P.Command
    {
      var terms := facts(t).terms;
      P.AcknowledgeOnChainFill(threshold, t, terms.amount, terms.direction, terms.priceUsdc)
    }
  }

  /** The two durable aggregate stores. */
  datatype Db = Db(trades: map<TradeId, T.Trade>, positions: map<Symbol, P.Stream>)
  {
    function TradeOf(t: TradeId): Option<T.Trade>
    {
      if t in trades then Some(trades[t]) else None
    }

    function StreamOf(symbol: Symbol): P.Stream
    {
      if symbol in positions then positions[symbol] else P.EMPTY
    }

    predicate Marked(t: TradeId) { t in trades && trades[t].IsAcknowledged() }
  }

  /** The next durable step of a delivery. */
  datatype Pc = Load | Witness | Reload | Enrich | ReadLog | Acknowledge | Mark | Settle

  function Rank(pc: Pc): nat
  {
    match pc
    case Load => 8 case Witness => 7 case Reload => 6 case Enrich => 5
    case ReadLog => 4 case Acknowledge => 3 case Mark => 2 case Settle => 1
  }

  /** The stores after a step and the step that follows; None ends the delivery. */
  datatype Move = Move(db: Db, next: Option<Pc>)

  function SendTrade(db: Db, t: TradeId, command: T.Command, now: Time): Result<Db, T.Error>
  {
    match T.Send(db.TradeOf(t), command, now)
    case Ok(trade) => Ok(db.(trades := db.trades[t := trade]))
    case Err(error) => Err(error)
  }

  function SendPosition(db: Db, symbol: Symbol, command: P.Command): Result<Db, P.Error>
  {
    match P.Send(db.StreamOf(symbol), command)
    case Ok(stream) => Ok(db.(positions := db.positions[symbol := stream]))
    case Err(error) => Err(error)
  }

  /** Where a witnessed trade resumes. */
  function Resume(trade: T.Trade): Pc
  {
    if trade.IsAcknowledged() then Settle
    else if trade.IsEnriched() then ReadLog
    else Enrich
  }

  function Advance(setting: Setting, db: Db, t: TradeId, pc: Pc, now: Time): (move: Move)
    ensures move.next.Some? ==> Rank(move.next.value) < Rank(pc)
  {
    var facts := setting.facts(t);
    match pc
    case Load =>
      if !facts.timestamped then Move(db, None)
      else (match db.TradeOf(t)
            case Some(trade) => Move(db, Some(Resume(trade)))
            case None => Move(db, Some(Witness)))
    case Witness =>
      (match SendTrade(db, t, T.Witness(facts.terms), now)
       case Ok(next) => Move(next, Some(Enrich))
       case Err(AlreadyFilled) => Move(db, Some(Reload))
       case Err(_) => Move(db, None))
    case Reload =>
      (match db.TradeOf(t)
       case Some(trade) => Move(db, Some(Resume(trade)))
       case None => Move(db, None))
    case Enrich =>
      // Best effort: missing gas data and rejections are logged and ignored.
      (match facts.gas
       case None => Move(db, Some(ReadLog))
       case Some(gas) =>
         match SendTrade(db, t, T.Enrich(gas.gasUsed, gas.effectiveGasPrice, gas.pythPrice), now)
         case Ok(next) => Move(next, Some(ReadLog))
         case Err(_) => Move(db, Some(ReadLog)))
    case ReadLog =>
      if t.logIndex > I64_MAX then Move(db, None)
      else if P.Filled(db.StreamOf(setting.SymbolOf(t)).log, t) then Move(db, Some(Mark))
      else Move(db, Some(Acknowledge))
    case Acknowledge =>
      (match SendPosition(db, setting.SymbolOf(t), setting.AcknowledgeCommand(t))
       case Ok(next) => Move(next, Some(Mark))
       case Err(DuplicateTrade(_)) => Move(db, Some(Mark))
       case Err(_) => Move(db, None))
    case Mark =>
      (match SendTrade(db, t, T.Acknowledge, now)
       case Ok(next) => Move(next, Some(Settle))
       case Err(AlreadyAcknowledged) => Move(db, Some(Settle))
       case Err(_) => Move(db, None))
    case Settle =>
      match SendPosition(db, setting.SymbolOf(t), P.SettleOnChainFill(t))
      case Ok(next) => Move(next, None)
      case Err(_) => Move(db, None)
  }

  /** A delivery in flight. `pruned` is a history variable: set when another delivery
      settles the same trade while this one stands between its log read and its
      position write. */
  datatype Delivery = Delivery(trade: TradeId, pc: Pc, pruned: bool)

  datatype System = System(db: Db, live: map<nat, Delivery>)

  const INITIAL := System(Db(map[], map[]), map[])

  datatype Action =
    | Start(id: nat, trade: TradeId)
    | Step(id: nat, now: Time)
    | Crash(id: nat)
    | OtherCommand(symbol: Symbol, command: P.Command)

  predicate Delivering(s: System, t: TradeId)
  {
    exists id :: id in s.live && s.live[id].trade == t
  }

  /** Records a settle that pruned `t` in every delivery waiting to write `t`. */
  function NotePrune(live: map<nat, Delivery>, t: TradeId): map<nat, Delivery>
  {
    map id | id in live ::
      if live[id].trade == t && live[id].pc == Acknowledge then live[id].(pruned := true) else live[id]
  }

  /** One action; an action that is not enabled changes nothing. With `serial`, a trade
      is only delivered again once its previous delivery has ended. */
  function Apply(setting: Setting, serial: bool, s: System, action: Action): System
  {
    match action
    case Start(id, t) =>
      if id in s.live || (serial && Delivering(s, t)) then s
      else s.(live := s.live[id := Delivery(t, Load, false)])
    case Crash(id) => s.(live := s.live - {id})
    case OtherCommand(symbol, command) =>
      if command.AcknowledgeOnChainFill? || command.SettleOnChainFill? then s
      else (match SendPosition(s.db, symbol, command)
            case Ok(db) => s.(db := db)
            case Err(_) => s)
    case Step(id, now) =>
      if id !in s.live then s
      else
        var d := s.live[id];
        var move := Advance(setting, s.db, d.trade, d.pc, now);
        var rest := s.live - {id};
        var stream := s.db.StreamOf(setting.SymbolOf(d.trade));
        var noted := if d.pc == Settle && d.trade in P.PendingIn(stream) then NotePrune(rest, d.trade) else rest;
        match move.next
        case None => System(move.db, noted)
        case Some(pc) => System(move.db, noted[id := Delivery(d.trade, pc, false)])
  }

  function RunFrom(setting: Setting, serial: bool, start: System, actions: seq<Action>): System
  {
    if actions == [] then start
    else Apply(setting, serial, RunFrom(setting, serial, start, actions[..|actions| - 1]), actions[|actions| - 1])
  }

  function Run(setting: Setting, serial: bool, actions: seq<Action>): System
  {
    RunFrom(setting, serial, INITIAL, actions)
  }

  // ----- What every reachable state satisfies -----

  /** The trade is in the fill log of its own symbol's position. */
  predicate Logged(setting: Setting, db: Db, t: TradeId)
  {
    P.Filled(db.StreamOf(setting.SymbolOf(t)).log, t)
  }

  /** The trade is in the pending-acknowledgement set of its position. */
  predicate Pending(setting: Setting, db: Db, t: TradeId)
  {
    t in P.PendingIn(db.StreamOf(setting.SymbolOf(t)))
  }

  ghost predicate StoresAgree(setting: Setting, db: Db)
  {
    && (forall symbol :: P.Reached(db.StreamOf(symbol)))
    && (forall symbol :: P.FillsAgree(db.StreamOf(symbol).log, setting.Fill))
    && (forall symbol, t :: P.Filled(db.StreamOf(symbol).log, t) ==> setting.SymbolOf(t) == symbol && t in db.trades)
    && (forall t :: t in db.trades ==> db.trades[t].terms == setting.facts(t).terms)
    && (forall t :: db.Marked(t) ==> Logged(setting, db, t))
    && (forall t :: Logged(setting, db, t) ==> Pending(setting, db, t) || db.Marked(t))
  }

  predicate DeliverySound(setting: Setting, db: Db, d: Delivery)
  {
    && (d.pc != Load && d.pc != Witness ==> d.trade in db.trades)
    && (d.pc == Acknowledge && Logged(setting, db, d.trade) ==> Pending(setting, db, d.trade) || d.pruned)
    && (d.pc == Mark ==> Logged(setting, db, d.trade))
    && (d.pc == Settle ==> db.Marked(d.trade))
    && (d.pruned ==> Logged(setting, db, d.trade))
  }

  ghost predicate Inv(setting: Setting, s: System)
  {
    && StoresAgree(setting, s.db)
    && (forall id :: id in s.live ==> DeliverySound(setting, s.db, s.live[id]))
  }

  /** What one step may do to the stores as seen by everybody else: records are never
      removed, and only a settle of `t` takes `t` out of a pending set. */
  ghost predicate Grows(setting: Setting, before: Db, after: Db, settled: set<TradeId>)
  {
    && before.trades.Keys <= after.trades.Keys
    && (forall t :: before.Marked(t) ==> after.Marked(t))
    && (forall t :: Logged(setting, before, t) ==> Logged(setting, after, t))
    && (forall t :: Pending(setting, before, t) && t !in settled ==> Pending(setting, after, t))
    && (forall t :: t !in settled && Logged(setting, after, t) ==>
        Logged(setting, before, t) || Pending(setting, after, t))
  }

  lemma TradeWrite(setting: Setting, db: Db, t: TradeId, trade: T.Trade)
    requires StoresAgree(setting, db)
    requires trade.terms == setting.facts(t).terms
    requires db.Marked(t) ==> trade.IsAcknowledged()
    requires trade.IsAcknowledged() ==> Logged(setting, db, t)
    ensures var after := db.(trades := db.trades[t := trade]);
            StoresAgree(setting, after) && Grows(setting, db, after, {})
  {
    var after := db.(trades := db.trades[t := trade]);
    assert forall symbol :: after.StreamOf(symbol) == db.StreamOf(symbol);
    assert forall x :: Logged(setting, after, x) <==> Logged(setting, db, x);
    assert forall x :: Pending(setting, after, x) <==> Pending(setting, db, x);
    assert forall x :: db.Marked(x) ==> after.Marked(x);
    assert forall x :: after.Marked(x) ==> db.Marked(x) || x == t;
  }

  /** Replacing one position's stream by one that logs `logged` more and has dropped
      `settled` from its pending set. */
  lemma StreamWrite(setting: Setting, db: Db, symbol: Symbol, stream: P.Stream, logged: set<TradeId>,
                    settled: set<TradeId>)
    requires StoresAgree(setting, db)
    requires P.Reached(stream) && P.FillsAgree(stream.log, setting.Fill)
    requires forall t :: P.Filled(stream.log, t) <==> P.Filled(db.StreamOf(symbol).log, t) || t in logged
    requires P.PendingIn(stream) == P.PendingIn(db.StreamOf(symbol)) + logged - settled
    requires forall t :: t in logged ==> setting.SymbolOf(t) == symbol && t in db.trades && t !in settled
    requires forall t :: t in settled ==> setting.SymbolOf(t) == symbol && db.Marked(t)
    ensures var after := db.(positions := db.positions[symbol := stream]);
            StoresAgree(setting, after) && Grows(setting, db, after, settled)
  {
    var after := db.(positions := db.positions[symbol := stream]);
    assert forall x :: after.StreamOf(x) == if x == symbol then stream else db.StreamOf(x);
    assert forall x :: after.Marked(x) <==> db.Marked(x);
    assert forall x :: Logged(setting, after, x) <==> Logged(setting, db, x) || x in logged;
    assert forall x :: Pending(setting, after, x) <==> (Pending(setting, db, x) || x in logged) && x !in settled;
  }

  lemma PositionWrite(setting: Setting, db: Db, symbol: Symbol, command: P.Command)
    requires StoresAgree(setting, db)
    requires command.AcknowledgeOnChainFill? ==>
               && symbol == setting.SymbolOf(command.trade) && command.trade in db.trades
               && (command.amount, command.direction, command.price) == setting.Fill(command.trade)
    requires command.SettleOnChainFill? ==> symbol == setting.SymbolOf(command.trade) && db.Marked(command.trade)
    ensures var stream := P.After(db.StreamOf(symbol), command);
            var after := db.(positions := db.positions[symbol := stream]);
            var settled := if command.SettleOnChainFill? then {command.trade} else {};
            && StoresAgree(setting, after)
            && Grows(setting, db, after, settled)
  {
    var before := db.StreamOf(symbol);
    var stream := P.After(before, command);
    P.ReachedAfter(before, command);
    if command.AcknowledgeOnChainFill? {
      P.AcknowledgeEffect(before, command, setting.Fill);
      StreamWrite(setting, db, symbol, stream, if P.Guarded(before, command.trade) then {} else {command.trade}, {});
    } else {
      P.OtherEffect(before, command, setting.Fill);
      StreamWrite(setting, db, symbol, stream, {}, if command.SettleOnChainFill? then {command.trade} else {});
    }
  }

  ghost predicate KeptBy(setting: Setting, db: Db, d: Delivery, move: Move)
  {
    && StoresAgree(setting, move.db)
    && Grows(setting, db, move.db, if d.pc == Settle then {d.trade} else {})
    && (move.next.Some? ==> DeliverySound(setting, move.db, Delivery(d.trade, move.next.value, false)))
  }

  /** One step of a delivery, alone: the stores stay in agreement, everyone else sees
      records only grow, and the delivery stands soundly at its next step. */
  lemma AdvanceKeeps(setting: Setting, db: Db, d: Delivery, now: Time)
    requires StoresAgree(setting, db) && DeliverySound(setting, db, d)
    ensures KeptBy(setting, db, d, Advance(setting, db, d.trade, d.pc, now))
  {
    if d.pc == Acknowledge || d.pc == Settle {
      PositionStepKeeps(setting, db, d, now);
    } else {
      TradeStepKeeps(setting, db, d, now);
    }
  }

  lemma TradeStepKeeps(setting: Setting, db: Db, d: Delivery, now: Time)
    requires StoresAgree(setting, db) && DeliverySound(setting, db, d) && d.pc != Acknowledge && d.pc != Settle
    ensures KeptBy(setting, db, d, Advance(setting, db, d.trade, d.pc, now))
  {
    match d.pc
    case Witness => WitnessStepKeeps(setting, db, d, now);
    case Enrich => EnrichStepKeeps(setting, db, d, now);
    case Mark => MarkStepKeeps(setting, db, d, now);
    case _ =>
  }

  lemma WitnessStepKeeps(setting: Setting, db: Db, d: Delivery, now: Time)
    requires StoresAgree(setting, db) && DeliverySound(setting, db, d) && d.pc == Witness
    ensures KeptBy(setting, db, d, Advance(setting, db, d.trade, d.pc, now))
  {
    if db.TradeOf(d.trade).None? {
      TradeWrite(setting, db, d.trade, T.Send(None, T.Witness(setting.facts(d.trade).terms), now).value);
    }
  }

  lemma EnrichStepKeeps(setting: Setting, db: Db, d: Delivery, now: Time)
    requires StoresAgree(setting, db) && DeliverySound(setting, db, d) && d.pc == Enrich
    ensures KeptBy(setting, db, d, Advance(setting, db, d.trade, d.pc, now))
  {
    if setting.facts(d.trade).gas.Some? {
      var gas := setting.facts(d.trade).gas.value;
      var sent := T.Send(db.TradeOf(d.trade), T.Enrich(gas.gasUsed, gas.effectiveGasPrice, gas.pythPrice), now);
      if sent.Ok? {
        TradeWrite(setting, db, d.trade, sent.value);
      }
    }
  }

  lemma MarkStepKeeps(setting: Setting, db: Db, d: Delivery, now: Time)
    requires StoresAgree(setting, db) && DeliverySound(setting, db, d) && d.pc == Mark
    ensures KeptBy(setting, db, d, Advance(setting, db, d.trade, d.pc, now))
  {
    var sent := T.Send(db.TradeOf(d.trade), T.Acknowledge, now);
    if sent.Ok? {
      TradeWrite(setting, db, d.trade, sent.value);
    }
  }

  lemma PositionStepKeeps(setting: Setting, db: Db, d: Delivery, now: Time)
    requires StoresAgree(setting, db) && DeliverySound(setting, db, d) && (d.pc == Acknowledge || d.pc == Settle)
    ensures KeptBy(setting, db, d, Advance(setting, db, d.trade, d.pc, now))
  {
    if d.pc == Acknowledge {
      AcknowledgeStepKeeps(setting, db, d, now);
    } else {
      SettleStepKeeps(setting, db, d, now);
    }
  }

  lemma SettleStepKeeps(setting: Setting, db: Db, d: Delivery, now: Time)
    requires StoresAgree(setting, db) && DeliverySound(setting, db, d) && d.pc == Settle
    ensures KeptBy(setting, db, d, Advance(setting, db, d.trade, d.pc, now))
  {
    var symbol, settle := setting.SymbolOf(d.trade), P.SettleOnChainFill(d.trade);
    PositionWrite(setting, db, symbol, settle);
    P.OtherEffect(db.StreamOf(symbol), settle, setting.Fill);
    assert Advance(setting, db, d.trade, Settle, now) == Move(SendPosition(db, symbol, settle).value, None);
  }

  lemma AcknowledgeStepKeeps(setting: Setting, db: Db, d: Delivery, now: Time)
    requires StoresAgree(setting, db) && DeliverySound(setting, db, d) && d.pc == Acknowledge
    ensures KeptBy(setting, db, d, Advance(setting, db, d.trade, d.pc, now))
  {
    var t, symbol := d.trade, setting.SymbolOf(d.trade);
    PositionWrite(setting, db, symbol, setting.AcknowledgeCommand(t));
    P.AcknowledgeEffect(db.StreamOf(symbol), setting.AcknowledgeCommand(t), setting.Fill);
  }

  lemma OthersStaySound(setting: Setting, before: Db, after: Db, settled: set<TradeId>, d: Delivery)
    requires DeliverySound(setting, before, d) && Grows(setting, before, after, settled)
    ensures d.trade !in settled || d.pc != Acknowledge ==> DeliverySound(setting, after, d)
    ensures Logged(setting, before, d.trade) && d.pc == Acknowledge ==>
        DeliverySound(setting, after, d.(pruned := true))
  {
  }

  /** What a settle leaves of another delivery of the same trade. */
  lemma SettleKeepsOther(setting: Setting, db: Db, d: Delivery, now: Time, other: Delivery)
    requires StoresAgree(setting, db) && DeliverySound(setting, db, d) && DeliverySound(setting, db, other)
    requires d.pc == Settle && other.trade == d.trade && other.pc == Acknowledge
    ensures var after := Advance(setting, db, d.trade, d.pc, now).db;
            DeliverySound(setting, after, if Pending(setting, db, d.trade) then other.(pruned := true) else other)
  {
    AdvanceKeeps(setting, db, d, now);
    OthersStaySound(setting, db, Advance(setting, db, d.trade, d.pc, now).db, {d.trade}, other);
    if !Pending(setting, db, d.trade) {
      SettledAlready(setting, db, d.trade);
    }
  }

  /** What a step of one delivery leaves of another. */
  lemma AdvanceKeepsOther(setting: Setting, db: Db, d: Delivery, now: Time, other: Delivery)
    requires StoresAgree(setting, db) && DeliverySound(setting, db, d) && DeliverySound(setting, db, other)
    ensures var after := Advance(setting, db, d.trade, d.pc, now).db;
            DeliverySound(setting, after, if Pruned(setting, db, d, other) then other.(pruned := true) else other)
  {
    if d.pc == Settle && other.trade == d.trade && other.pc == Acknowledge {
      SettleKeepsOther(setting, db, d, now, other);
    } else {
      AdvanceKeeps(setting, db, d, now);
      var settled := if d.pc == Settle then {d.trade} else {};
      OthersStaySound(setting, db, Advance(setting, db, d.trade, d.pc, now).db, settled, other);
    }
  }

  /** The step of `d` settles a trade that `other` is about to write. */
  predicate Pruned(setting: Setting, db: Db, d: Delivery, other: Delivery)
  {
    d.pc == Settle && other.trade == d.trade && other.pc == Acknowledge && Pending(setting, db, d.trade)
  }

  lemma StepNotes(setting: Setting, serial: bool, s: System, id: nat, now: Time, x: nat)
    requires id in s.live && x in s.live && x != id
    ensures var d, other, after := s.live[id], s.live[x], Apply(setting, serial, s, Step(id, now));
            && x in after.live && after.db == Advance(setting, s.db, d.trade, d.pc, now).db
            && after.live[x] == if Pruned(setting, s.db, d, other) then other.(pruned := true) else other
  {
  }

  lemma StepKeepsOther(setting: Setting, serial: bool, s: System, id: nat, now: Time, x: nat)
    requires Inv(setting, s) && id in s.live && x in s.live && x != id
    ensures var after := Apply(setting, serial, s, Step(id, now));
            x in after.live && DeliverySound(setting, after.db, after.live[x])
  {
    StepNotes(setting, serial, s, id, now, x);
    AdvanceKeepsOther(setting, s.db, s.live[id], now, s.live[x]);
  }

  lemma StepKeepsInv(setting: Setting, serial: bool, s: System, id: nat, now: Time)
    requires Inv(setting, s) && id in s.live
    ensures Inv(setting, Apply(setting, serial, s, Step(id, now)))
  {
    var after := Apply(setting, serial, s, Step(id, now));
    AdvanceKeeps(setting, s.db, s.live[id], now);
    forall x | x in after.live && x != id ensures DeliverySound(setting, after.db, after.live[x]) {
      StepKeepsOther(setting, serial, s, id, now, x);
    }
  }

  /** A step of one trade's delivery says nothing about another trade. */
  lemma StepLeavesOthers(setting: Setting, db: Db, d: Delivery, now: Time, t: TradeId)
    requires StoresAgree(setting, db) && d.trade != t
    ensures var after := Advance(setting, db, d.trade, d.pc, now).db;
            && (Logged(setting, after, t) <==> Logged(setting, db, t))
            && (Pending(setting, after, t) <==> Pending(setting, db, t))
            && (t in after.trades <==> t in db.trades) && (t in db.trades ==> after.trades[t] == db.trades[t])
  {
    if d.pc == Acknowledge || d.pc == Settle {
      PositionStepLeavesOthers(setting, db, d, now, t);
    } else {
      assert Advance(setting, db, d.trade, d.pc, now).db.positions == db.positions;
    }
  }

  lemma PositionStepLeavesOthers(setting: Setting, db: Db, d: Delivery, now: Time, t: TradeId)
    requires StoresAgree(setting, db) && d.trade != t && (d.pc == Acknowledge || d.pc == Settle)
    ensures var after := Advance(setting, db, d.trade, d.pc, now).db;
            && (Logged(setting, after, t) <==> Logged(setting, db, t))
            && (Pending(setting, after, t) <==> Pending(setting, db, t))
            && after.trades == db.trades
  {
    var stream := db.StreamOf(setting.SymbolOf(d.trade));
    if d.pc == Acknowledge {
      P.AcknowledgeEffect(stream, setting.AcknowledgeCommand(d.trade), setting.Fill);
    } else {
      P.OtherEffect(stream, P.SettleOnChainFill(d.trade), setting.Fill);
    }
  }

  lemma CommandLeavesTrades(setting: Setting, db: Db, symbol: Symbol, command: P.Command, t: TradeId)
    requires StoresAgree(setting, db) && !command.AcknowledgeOnChainFill? && !command.SettleOnChainFill?
    requires SendPosition(db, symbol, command).Ok?
    ensures var after := SendPosition(db, symbol, command).value;
            && (Logged(setting, after, t) <==> Logged(setting, db, t))
            && (Pending(setting, after, t) <==> Pending(setting, db, t))
            && after.trades == db.trades
  {
    P.OtherEffect(db.StreamOf(symbol), command, setting.Fill);
  }

  /** Settling a trade that is not pending writes nothing. */
  lemma SettledAlready(setting: Setting, db: Db, t: TradeId)
    requires !Pending(setting, db, t)
    ensures P.Send(db.StreamOf(setting.SymbolOf(t)), P.SettleOnChainFill(t)) == Ok(db.StreamOf(setting.SymbolOf(t)))
  {
  }

  lemma ApplyKeepsInv(setting: Setting, serial: bool, s: System, action: Action)
    requires Inv(setting, s)
    ensures Inv(setting, Apply(setting, serial, s, action))
  {
    match action
    case Start(_, _) =>
    case Crash(_) =>
    case Step(id, now) =>
      if id in s.live {
        StepKeepsInv(setting, serial, s, id, now);
      }
    case OtherCommand(symbol, command) =>
      var after := Apply(setting, serial, s, action);
      if after != s {
        PositionWrite(setting, s.db, symbol, command);
        forall x | x in s.live ensures DeliverySound(setting, after.db, s.live[x]) {
          OthersStaySound(setting, s.db, after.db, {}, s.live[x]);
        }
      }
  }

  lemma InitialInv(setting: Setting)
    ensures Inv(setting, INITIAL)
  {
    P.EmptyIsReached();
  }

  /** In every interleaving, with any number of concurrent deliveries of the same trade
      and any hedging commands in between: a marked trade is logged, a logged trade is
      pending or marked, and each log holds only its own symbol's trades. */
  lemma {:induction false} EveryRunKeepsStoresAgreeing(setting: Setting, serial: bool, actions: seq<Action>)
    ensures Inv(setting, Run(setting, serial, actions))
  {
    if actions == [] {
      InitialInv(setting);
    } else {
      EveryRunKeepsStoresAgreeing(setting, serial, actions[..|actions| - 1]);
      ApplyKeepsInv(setting, serial, Run(setting, serial, actions[..|actions| - 1]), actions[|actions| - 1]);
    }
  }

  // ----- Concurrent deliveries of one trade -----

  /** The position write of delivery `id` would apply a trade that is already logged. */
  predicate AppliesTwice(setting: Setting, s: System, id: nat)
    requires id in s.live
  {
    var t := s.live[id].trade;
    && s.live[id].pc == Acknowledge
    && Logged(setting, s.db, t)
    && P.Send(s.db.StreamOf(setting.SymbolOf(t)), setting.AcknowledgeCommand(t)).Ok?
  }

  /** A second application happens exactly when the delivery missed a settle of the
      trade and both position guards have let go of it. */
  lemma SecondApplicationNeedsPrune(setting: Setting, actions: seq<Action>, id: nat)
    requires id in Run(setting, false, actions).live
    ensures var s := Run(setting, false, actions);
            var d := s.live[id];
            AppliesTwice(setting, s, id) <==>
              d.pc == Acknowledge && d.pruned && !P.Guarded(s.db.StreamOf(setting.SymbolOf(d.trade)), d.trade)
  {
    var s := Run(setting, false, actions);
    var t := s.live[id].trade;
    EveryRunKeepsStoresAgreeing(setting, false, actions);
    P.AcknowledgeEffect(s.db.StreamOf(setting.SymbolOf(t)), setting.AcknowledgeCommand(t), setting.Fill);
  }

  /** Delivery `id` stands between its log read and its position write of `t`. */
  predicate Waiting(s: System, id: nat, t: TradeId)
  {
    id in s.live && s.live[id].pc == Acknowledge && s.live[id].trade == t
  }

  /** The action is another delivery's settle of `t`, which is pending. */
  predicate PrunesFor(setting: Setting, s: System, action: Action, id: nat, t: TradeId)
  {
    && action.Step? && action.id != id && action.id in s.live
    && s.live[action.id].pc == Settle && s.live[action.id].trade == t
    && Pending(setting, s.db, t)
  }

  /** Action `k` settles `t` for another delivery, and from then on `id` only waits. */
  ghost predicate SettledInWindow(setting: Setting, serial: bool, actions: seq<Action>, id: nat, t: TradeId, k: nat)
  {
    && k < |actions|
    && PrunesFor(setting, Run(setting, serial, actions[..k]), actions[k], id, t)
    && forall m :: k <= m <= |actions| ==> Waiting(Run(setting, serial, actions[..m]), id, t)
  }

  lemma PrunedStep(setting: Setting, serial: bool, s: System, action: Action, id: nat)
    requires var after := Apply(setting, serial, s, action); id in after.live && after.live[id].pruned
    requires id in s.live && s.live[id].pruned ==> s.live[id].pc == Acknowledge
    ensures var t := Apply(setting, serial, s, action).live[id].trade;
            && Waiting(s, id, t) && Waiting(Apply(setting, serial, s, action), id, t)
            && (s.live[id].pruned || PrunesFor(setting, s, action, id, t))
  {
  }

  lemma {:induction false} PrunedIsWaiting(setting: Setting, serial: bool, actions: seq<Action>, id: nat)
    requires id in Run(setting, serial, actions).live && Run(setting, serial, actions).live[id].pruned
    ensures Run(setting, serial, actions).live[id].pc == Acknowledge
    decreases |actions|
  {
    var before := actions[..|actions| - 1];
    var s := Run(setting, serial, before);
    if id in s.live && s.live[id].pruned {
      PrunedIsWaiting(setting, serial, before, id);
    }
    PrunedStep(setting, serial, s, actions[|actions| - 1], id);
  }

  lemma WindowGrows(setting: Setting, serial: bool, actions: seq<Action>, id: nat, t: TradeId, k: nat)
    requires actions != [] && k < |actions|
    requires Waiting(Run(setting, serial, actions), id, t)
    requires var before := actions[..|actions| - 1];
             var s := Run(setting, serial, before);
             if k == |before| then PrunesFor(setting, s, actions[k], id, t) && Waiting(s, id, t)
             else SettledInWindow(setting, serial, before, id, t, k)
    ensures SettledInWindow(setting, serial, actions, id, t, k)
  {
    var before := actions[..|actions| - 1];
    assert actions[..|actions|] == actions && before[..|before|] == before;
    forall m | k <= m <= |actions| ensures Waiting(Run(setting, serial, actions[..m]), id, t) {
      if m <= |before| {
        assert actions[..m] == before[..m];
      }
    }
    assert actions[..k] == before[..k];
  }

  /** The history variable tells the truth: a pruned delivery really did have another
      delivery's settle fall inside its read-to-write window. */
  lemma {:induction false} PrunedWasSettledInWindow(setting: Setting, serial: bool, actions: seq<Action>, id: nat)
    returns (k: nat)
    requires id in Run(setting, serial, actions).live && Run(setting, serial, actions).live[id].pruned
    ensures SettledInWindow(setting, serial, actions, id, Run(setting, serial, actions).live[id].trade, k)
    decreases |actions|
  {
    var before := actions[..|actions| - 1];
    var s := Run(setting, serial, before);
    var t := Run(setting, serial, actions).live[id].trade;
    if id in s.live && s.live[id].pruned {
      PrunedIsWaiting(setting, serial, before, id);
    }
    PrunedStep(setting, serial, s, actions[|actions| - 1], id);
    if s.live[id].pruned {
      k := PrunedWasSettledInWindow(setting, serial, before, id);
    } else {
      k := |before|;
    }
    WindowGrows(setting, serial, actions, id, t, k);
  }

  lemma WaitingStaysPruned(setting: Setting, serial: bool, s: System, action: Action, id: nat, t: TradeId)
    requires Waiting(s, id, t) && Waiting(Apply(setting, serial, s, action), id, t)
    requires s.live[id].pruned || PrunesFor(setting, s, action, id, t)
    ensures Apply(setting, serial, s, action).live[id].pruned
  {
  }

  /** And it tells the whole truth: a settle in the window always sets it. */
  lemma {:induction false} SettledInWindowPrunes(setting: Setting, serial: bool, actions: seq<Action>, id: nat,
                                                 t: TradeId, k: nat)
    requires SettledInWindow(setting, serial, actions, id, t, k)
    ensures Waiting(Run(setting, serial, actions), id, t) && Run(setting, serial, actions).live[id].pruned
    decreases |actions|
  {
    var before := actions[..|actions| - 1];
    WindowEnds(setting, serial, actions, id, t, k);
    if k < |before| {
      WindowShrinks(setting, serial, actions, id, t, k);
      SettledInWindowPrunes(setting, serial, before, id, t, k);
    }
    WaitingStaysPruned(setting, serial, Run(setting, serial, before), actions[|before|], id, t);
  }

  /** The delivery waits on both sides of the last action, which is the settle itself if
      the window has only just opened. */
  lemma WindowEnds(setting: Setting, serial: bool, actions: seq<Action>, id: nat, t: TradeId, k: nat)
    requires SettledInWindow(setting, serial, actions, id, t, k)
    ensures var before := actions[..|actions| - 1];
            && Waiting(Run(setting, serial, actions), id, t) && Waiting(Run(setting, serial, before), id, t)
            && (k == |before| ==> PrunesFor(setting, Run(setting, serial, before), actions[k], id, t))
  {
    assert actions[..|actions|] == actions;
    assert Waiting(Run(setting, serial, actions[..|actions| - 1]), id, t);
  }

  lemma WindowShrinks(setting: Setting, serial: bool, actions: seq<Action>, id: nat, t: TradeId, k: nat)
    requires SettledInWindow(setting, serial, actions, id, t, k) && k < |actions| - 1
    ensures SettledInWindow(setting, serial, actions[..|actions| - 1], id, t, k)
  {
    var before := actions[..|actions| - 1];
    assert before[..k] == actions[..k];
    forall m | k <= m <= |before| ensures Waiting(Run(setting, serial, before[..m]), id, t) {
      assert before[..m] == actions[..m];
    }
  }

  /** In every interleaving a position write applies a logged trade again exactly when
      another delivery's settle of it fell into this delivery's read-to-write window and
      the position's guards have let go of it since. */
  lemma SecondApplicationIff(setting: Setting, actions: seq<Action>, id: nat)
    requires id in Run(setting, false, actions).live
    ensures var s := Run(setting, false, actions);
            var t := s.live[id].trade;
            AppliesTwice(setting, s, id) <==>
              && (exists k :: SettledInWindow(setting, false, actions, id, t, k))
              && !P.Guarded(s.db.StreamOf(setting.SymbolOf(t)), t)
  {
    SecondApplicationNeedsPrune(setting, actions, id);
    var d := Run(setting, false, actions).live[id];
    if d.pruned {
      PrunedIsWaiting(setting, false, actions, id);
      var k := PrunedWasSettledInWindow(setting, false, actions, id);
    }
    forall k | SettledInWindow(setting, false, actions, id, d.trade, k) ensures d.pruned && d.pc == Acknowledge {
      SettledInWindowPrunes(setting, false, actions, id, d.trade, k);
    }
  }

  // ----- Deliveries of one trade that follow one another -----

  /** No trade is in two deliveries at once, and no delivery has been overtaken. */
  predicate OneByOne(live: map<nat, Delivery>)
  {
    && (forall i, j :: i in live && j in live && i != j ==> live[i].trade != live[j].trade)
    && (forall id :: id in live ==> !live[id].pruned)
  }

  lemma ApplyKeepsOneByOne(setting: Setting, s: System, action: Action)
    requires OneByOne(s.live)
    ensures OneByOne(Apply(setting, true, s, action).live)
  {
  }

  ghost predicate SerialInv(setting: Setting, s: System)
  {
    && Inv(setting, s)
    && OneByOne(s.live)
    && (forall symbol :: P.UniqueFills(s.db.StreamOf(symbol).log))
  }

  lemma AdvanceKeepsUnique(setting: Setting, db: Db, d: Delivery, now: Time)
    requires StoresAgree(setting, db) && DeliverySound(setting, db, d) && !d.pruned
    requires forall symbol :: P.UniqueFills(db.StreamOf(symbol).log)
    ensures forall symbol :: P.UniqueFills(Advance(setting, db, d.trade, d.pc, now).db.StreamOf(symbol).log)
  {
    var t, symbol := d.trade, setting.SymbolOf(d.trade);
    var after := Advance(setting, db, t, d.pc, now).db;
    assert P.UniqueFills(db.StreamOf(symbol).log);
    if d.pc == Acknowledge {
      assert Logged(setting, db, t) ==> P.Guarded(db.StreamOf(symbol), t);
      P.AcknowledgeEffect(db.StreamOf(symbol), setting.AcknowledgeCommand(t), setting.Fill);
      assert after.StreamOf(symbol) == P.After(db.StreamOf(symbol), setting.AcknowledgeCommand(t));
    } else if d.pc == Settle {
      P.OtherEffect(db.StreamOf(symbol), P.SettleOnChainFill(t), setting.Fill);
      assert after.StreamOf(symbol) == P.After(db.StreamOf(symbol), P.SettleOnChainFill(t));
    } else {
      assert after.positions == db.positions;
    }
    assert P.UniqueFills(after.StreamOf(symbol).log);
    assert forall x :: x != symbol ==> after.StreamOf(x) == db.StreamOf(x);
  }

  lemma ApplyKeepsSerialInv(setting: Setting, s: System, action: Action)
    requires SerialInv(setting, s)
    ensures SerialInv(setting, Apply(setting, true, s, action))
  {
    ApplyKeepsInv(setting, true, s, action);
    ApplyKeepsOneByOne(setting, s, action);
    var after := Apply(setting, true, s, action);
    match action
    case Start(_, _) =>
    case Crash(_) =>
    case Step(id, now) =>
      if id in s.live {
        AdvanceKeepsUnique(setting, s.db, s.live[id], now);
      }
    case OtherCommand(symbol, command) =>
      if after != s {
        P.OtherEffect(s.db.StreamOf(symbol), command, setting.Fill);
        assert forall x :: x != symbol ==> after.db.StreamOf(x) == s.db.StreamOf(x);
      }
  }

  lemma {:induction false} EverySerialRunIsSound(setting: Setting, actions: seq<Action>)
    ensures SerialInv(setting, Run(setting, true, actions))
  {
    if actions == [] {
      InitialInv(setting);
    } else {
      EverySerialRunIsSound(setting, actions[..|actions| - 1]);
      ApplyKeepsSerialInv(setting, Run(setting, true, actions[..|actions| - 1]), actions[|actions| - 1]);
    }
  }
}
