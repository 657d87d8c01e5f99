/**
 The accounting pipeline in the form it runs: methods that update the two aggregate
 stores in place and stop wherever the process dies. Each is proved against the small
 step machine of FillAccounting.
 */
module FillDelivery {
  import opened Common
  import opened FillAccounting
  import opened FillTheorems
  import E = FillEnrichment
  import T = OnChainTrades
  import P = Positions

  /** How a delivery ended: cut off before some step, refused for good, or done. */
  datatype Outcome =
    | Interrupted(at: Pc)
    | Refused
    | AlreadyAcknowledged
    | Accounted

  /** A delivery from its start, cut off after `steps` steps. With a rival, another
      delivery's witness lands between its load, which found nothing, and its own. */
  function Contested(setting: Setting, db: Db, t: TradeId, clock: Pc -> Time, steps: nat, rival: Option<Time>): Move
  {
    if rival.Some? && steps > 0 && setting.facts(t).timestamped && db.TradeOf(t).None? then
      (match SendTrade(db, t, T.Witness(setting.facts(t).terms), rival.value)
       case Ok(witnessed) => RunFor(setting, witnessed, t, Witness, clock, steps - 1)
       case Err(_) => RunFor(setting, db, t, Load, clock, steps))
    else RunFor(setting, db, t, Load, clock, steps)
  }

  lemma ContestedKeepsEnrichment(setting: Setting, db: Db, t: TradeId, clock: Pc -> Time, steps: nat,
                                 rival: Option<Time>)
    ensures E.AllEnrichedRight(setting, db) ==>
              E.AllEnrichedRight(setting, Contested(setting, db, t, clock, steps, rival).db)
  {
    if E.AllEnrichedRight(setting, db) {
      E.CutOffKeepsEnrichment(setting, db, t, Load, clock, steps);
      if rival.Some? && steps > 0 && db.TradeOf(t).None? {
        E.WitnessKeepsEnrichment(setting, db, t, rival.value);
        var witnessed := SendTrade(db, t, T.Witness(setting.facts(t).terms), rival.value).value;
        E.CutOffKeepsEnrichment(setting, witnessed, t, Witness, clock, steps - 1);
      }
    }
  }

  /** A witness never marks its trade. */
  lemma WitnessLeavesUnmarked(setting: Setting, db: Db, t: TradeId, now: Time)
    requires !db.Marked(t)
    ensures match SendTrade(db, t, T.Witness(setting.facts(t).terms), now)
            case Ok(next) => db.TradeOf(t).None? && !next.Marked(t) && next.positions == db.positions
            case Err(_) => db.TradeOf(t).Some?
  {
  }

  /** The position rejects an acknowledgement only as a duplicate. */
  lemma AcknowledgeNeverRefused(setting: Setting, db: Db, t: TradeId)
    ensures var stream := db.StreamOf(setting.SymbolOf(t));
            P.Reached(stream) ==>
              match P.Send(stream, setting.AcknowledgeCommand(t))
              case Ok(_) => true
              case Err(error) => error == P.DuplicateTrade(t)
  {
    var stream := db.StreamOf(setting.SymbolOf(t));
    if P.Reached(stream) {
      P.AcknowledgeEffect(stream, setting.AcknowledgeCommand(t), setting.Fill);
    }
  }

  class FillStore {
    const setting: Setting
    var trades: map<TradeId, T.Trade>
    var positions: map<Symbol, P.Stream>

    constructor (setting: Setting)
      ensures this.setting == setting && Contents() == INITIAL.db
    {
      this.setting := setting;
      trades, positions := map[], map[];
    }

    function Contents(): Db
      reads this
    {
      Db(trades, positions)
    }

    /** Loads, decides and appends in one store transaction. */
    method SendTradeCommand(t: TradeId, command: T.Command, now: Time) returns (error: Option<T.Error>)
      modifies this`trades
      ensures match SendTrade(old(Contents()), t, command, now)
              case Ok(db) => error.None? && Contents() == db
              case Err(e) => error == Some(e) && Contents() == old(Contents())
    {
      var state := if t in trades then Some(trades[t]) else None;
      match T.Send(state, command, now)
      case Ok(trade) =>
        trades := trades[t := trade];
        error := None;
      case Err(e) => error := Some(e);
    }

    method SendPositionCommand(symbol: Symbol, command: P.Command) returns (error: Option<P.Error>)
      modifies this`positions
      ensures match SendPosition(old(Contents()), symbol, command)
              case Ok(db) => error.None? && Contents() == db
              case Err(e) => error == Some(e) && Contents() == old(Contents())
    {
      match P.Send(Contents().StreamOf(symbol), command)
      case Ok(stream) =>
        positions := positions[symbol := stream];
        error := None;
      case Err(e) => error := Some(e);
    }

    /** Best effort: missing gas data and every rejection are ignored. */
    method EnrichTrade(t: TradeId, now: Time)
      modifies this`trades
      ensures Contents() == Advance(setting, old(Contents()), t, Enrich, now).db
    {
      var gas := setting.facts(t).gas;
      if gas.Some? {
        var enrich := T.Enrich(gas.value.gasUsed, gas.value.effectiveGasPrice, gas.value.pythPrice);
        var _ := SendTradeCommand(t, enrich, now);
      }
    }

    /** Settles a trade whose marker is already durable, ending the delivery. */
    method SettleFill(t: TradeId, clock: Pc -> Time, steps: nat) returns (outcome: Outcome)
      modifies this`positions
      ensures RunFor(setting, old(Contents()), t, Settle, clock, steps)
           == Move(Contents(), if outcome.Interrupted? then Some(outcome.at) else None)
      ensures outcome == if steps == 0 then Interrupted(Settle) else AlreadyAcknowledged
    {
      if steps == 0 {
        return Interrupted(Settle);
      }
      var _ := SendPositionCommand(setting.SymbolOf(t), P.SettleOnChainFill(t));
      return AlreadyAcknowledged;
    }

    /** What is left of a delivery once the accounting method returns. */
    ghost function Remainder(outcome: Outcome, t: TradeId, clock: Pc -> Time, left: nat): Move
      reads this
    {
      match outcome
      case Interrupted(at) => Move(Contents(), Some(at))
      case Refused => Move(Contents(), None)
      case AlreadyAcknowledged => Move(Contents(), None)
      case Accounted => RunFor(setting, Contents(), t, Mark, clock, left)
    }

    /** Loads the trade and brings it to the witnessed and enriched point. `left` counts
        the store operations that still complete before the process dies; `resumed` says
        that the pipeline goes on to read the durable fill log; `rival` is the time at
        which another delivery witnesses the trade right behind this one's load, if so. */
    method WitnessOrResume(t: TradeId, clock: Pc -> Time, steps: nat, rival: Option<Time>)
      returns (resumed: bool, outcome: Outcome, left: nat)
      modifies this
      ensures outcome != Accounted
      ensures resumed ==> positions == old(positions) && setting.facts(t).timestamped && !old(Contents()).Marked(t)
      ensures !resumed && outcome == Refused ==> !setting.facts(t).timestamped
      ensures !resumed && outcome == AlreadyAcknowledged ==> old(Contents()).Marked(t)
      ensures Contested(setting, old(Contents()), t, clock, steps, rival)
           == if resumed then RunFor(setting, Contents(), t, ReadLog, clock, left)
              else Remainder(outcome, t, clock, left)
    {
      resumed, outcome, left := false, Refused, steps;
      if left == 0 { outcome := Interrupted(Load); return; }
      left := left - 1;
      if !setting.facts(t).timestamped { return; }
      var loaded := Contents().TradeOf(t);
      assert loaded.Some? ==> (loaded.value.IsAcknowledged() <==> old(Contents()).Marked(t));
      if loaded.None? {
        if rival.Some? {
          WitnessLeavesUnmarked(setting, Contents(), t, rival.value);
          var _ := SendTradeCommand(t, T.Witness(setting.facts(t).terms), rival.value);
        }
        assert Contested(setting, old(Contents()), t, clock, steps, rival)
            == RunFor(setting, Contents(), t, Witness, clock, left);
        if left == 0 { outcome := Interrupted(Witness); return; }
        left := left - 1;
        WitnessLeavesUnmarked(setting, Contents(), t, clock(Witness));
        var error := SendTradeCommand(t, T.Witness(setting.facts(t).terms), clock(Witness));
        assert Contested(setting, old(Contents()), t, clock, steps, rival)
            == RunFor(setting, Contents(), t, if error.Some? then Reload else Enrich, clock, left);
        if error.Some? {
          // Another delivery witnessed the trade meanwhile: start over from its record.
          if left == 0 { outcome := Interrupted(Reload); return; }
          left := left - 1;
          loaded := Contents().TradeOf(t);
        }
      }
      assert loaded.Some? ==> (loaded.value.IsAcknowledged() <==> old(Contents()).Marked(t));
      var pc := if loaded.Some? then Resume(loaded.value) else Enrich;
      assert Contested(setting, old(Contents()), t, clock, steps, rival)
          == RunFor(setting, Contents(), t, pc, clock, left);
      resumed, outcome, left := ResumeFrom(t, clock, left, pc);
    }

    /** Continues a witnessed trade: settles an acknowledged one, enriches a bare one. */
    method ResumeFrom(t: TradeId, clock: Pc -> Time, steps: nat, pc: Pc)
      returns (resumed: bool, outcome: Outcome, left: nat)
      requires pc == Settle || pc == ReadLog || pc == Enrich
      modifies this
      ensures outcome != Accounted && (resumed <==> pc != Settle && !(pc == Enrich && steps == 0))
      ensures !resumed ==> outcome == if steps == 0 then Interrupted(pc) else AlreadyAcknowledged
      ensures resumed ==> positions == old(positions)
      ensures RunFor(setting, old(Contents()), t, pc, clock, steps)
           == if resumed then RunFor(setting, Contents(), t, ReadLog, clock, left)
              else Remainder(outcome, t, clock, left)
    {
      resumed, outcome, left := true, Refused, steps;
      if pc == Settle {
        // Self-heals a crash between mark and settle.
        outcome := SettleFill(t, clock, left);
        resumed := false;
      } else if pc == Enrich {
        if left == 0 { return false, Interrupted(Enrich), 0; }
        left := left - 1;
        EnrichTrade(t, clock(Enrich));
      }
    }

    method AccountForOnchainFill(t: TradeId, clock: Pc -> Time, steps: nat, rival: Option<Time>)
      returns (outcome: Outcome, left: nat)
      modifies this
      ensures Contested(setting, old(Contents()), t, clock, steps, rival) == Remainder(outcome, t, clock, left)
      ensures outcome == Accounted ==> Deliverable(setting, t) && !old(Contents()).Marked(t)
      ensures outcome == AlreadyAcknowledged ==> old(Contents()).Marked(t)
      ensures P.Reached(old(Contents()).StreamOf(setting.SymbolOf(t))) && outcome == Refused ==>
                !Deliverable(setting, t)
    {
      var resumed;
      resumed, outcome, left := WitnessOrResume(t, clock, steps, rival);
      if !resumed { return; }
      if left == 0 { return Interrupted(ReadLog), 0; }
      left := left - 1;
      if t.logIndex > I64_MAX { return Refused, left; }
      if !P.Filled(Contents().StreamOf(setting.SymbolOf(t)).log, t) {
        if left == 0 { return Interrupted(Acknowledge), 0; }
        left := left - 1;
        AcknowledgeNeverRefused(setting, Contents(), t);
        var error := SendPositionCommand(setting.SymbolOf(t), setting.AcknowledgeCommand(t));
        if error.Some? && !error.value.DuplicateTrade? { return Refused, left; }
      }
      return Accounted, left;
    }

    /** One delivery of a queued trade, cut off after `steps` store operations. */
    method ProcessQueuedTrade(t: TradeId, clock: Pc -> Time, steps: nat, rival: Option<Time>) returns (outcome: Outcome)
      modifies this
      ensures Contested(setting, old(Contents()), t, clock, steps, rival)
           == Move(Contents(), if outcome.Interrupted? then Some(outcome.at) else None)
      ensures outcome == AlreadyAcknowledged ==> old(Contents()).Marked(t)
      ensures outcome == Accounted ==> !old(Contents()).Marked(t) && Contents().Marked(t)
      ensures P.Reached(old(Contents()).StreamOf(setting.SymbolOf(t))) && outcome == Refused && t in trades ==>
                !Deliverable(setting, t)
      ensures E.AllEnrichedRight(setting, old(Contents())) ==> E.AllEnrichedRight(setting, Contents())
    {
      ContestedKeepsEnrichment(setting, Contents(), t, clock, steps, rival);
      var left;
      outcome, left := AccountForOnchainFill(t, clock, steps, rival);
      if outcome == Accounted { outcome := MarkAndSettle(t, clock, left); }
    }

    /** Marks an accounted trade acknowledged, then settles it. */
    method MarkAndSettle(t: TradeId, clock: Pc -> Time, steps: nat) returns (outcome: Outcome)
      modifies this
      ensures RunFor(setting, old(Contents()), t, Mark, clock, steps)
           == Move(Contents(), if outcome.Interrupted? then Some(outcome.at) else None)
      ensures outcome != AlreadyAcknowledged
      ensures outcome == Accounted ==> Contents().Marked(t)
      ensures outcome == Refused ==> t !in trades
    {
      if steps == 0 { return Interrupted(Mark); }
      var error := SendTradeCommand(t, T.Acknowledge, clock(Mark));
      if error.Some? && error.value != T.AlreadyAcknowledged { return Refused; }
      assert RunFor(setting, old(Contents()), t, Mark, clock, steps)
          == RunFor(setting, Contents(), t, Settle, clock, steps - 1);
      if steps == 1 { return Interrupted(Settle); }
      var _ := SendPositionCommand(setting.SymbolOf(t), P.SettleOnChainFill(t));
      return Accounted;
    }

    /** Redelivering a trade heals whatever earlier deliveries left half done. */
    method Redeliver(t: TradeId, clock: Pc -> Time) returns (outcome: Outcome)
      requires Consistent(setting, Contents()) && Deliverable(setting, t)
      modifies this
      ensures Consistent(setting, Contents()) && FillTheorems.Accounted(setting, Contents(), t)
      ensures outcome == if old(Contents()).Marked(t) then AlreadyAcknowledged else Accounted
      ensures t in trades && trades[t].terms == setting.facts(t).terms && trades[t].acknowledgedAt.Some?
      ensures E.AllEnrichedRight(setting, old(Contents())) ==>
                match setting.facts(t).gas
                case Some(gas) =>
                  if gas.effectiveGasPrice <= 0x7FFF_FFFF_FFFF_FFFF then
                    && trades[t].enrichment.Some?
                    && trades[t].enrichment.value.gasUsed == gas.gasUsed
                    && trades[t].enrichment.value.effectiveGasPrice == gas.effectiveGasPrice
                    && trades[t].enrichment.value.pythPrice == gas.pythPrice
                  else trades[t].enrichment == None
                case None => trades[t].enrichment == None
    {
      CutOffKeepsConsistent(setting, Contents(), t, Load, clock, WHOLE);
      WholeDeliveryAccounts(setting, Contents(), t, Load, clock, WHOLE);
      outcome := ProcessQueuedTrade(t, clock, WHOLE, None);
      assert E.AllEnrichedRight(setting, old(Contents())) ==> E.EnrichedRight(setting, t, Contents().trades[t]);
    }
  }
}
