/**
 Enrichment of witnessed trades with gas and price data: best effort inside a delivery,
 but part of every delivery that gets as far as the fill log.
 */
module FillEnrichment {
  import opened Common
  import opened FillAccounting
  import opened FillTheorems
  import T = OnChainTrades
  import P = Positions

  /** The facts of a trade carry gas data the database can hold. */
  predicate Enrichable(setting: Setting, t: TradeId)
  {
    match setting.facts(t).gas
    case Some(gas) => gas.effectiveGasPrice <= 0x7FFF_FFFF_FFFF_FFFF
    case None => false
  }

  /** The stored enrichment is the trade's own gas data, field by field. */
  predicate CarriesFacts(setting: Setting, t: TradeId, trade: T.Trade)
    requires Enrichable(setting, t)
  {
    match trade.enrichment
    case Some(enrichment) =>
      && enrichment.gasUsed == setting.facts(t).gas.value.gasUsed
      && enrichment.effectiveGasPrice == setting.facts(t).gas.value.effectiveGasPrice
      && enrichment.pythPrice == setting.facts(t).gas.value.pythPrice
    case None => false
  }

  /** A trade is enriched with its own facts or not at all, and a marked one is enriched
      whenever it can be. */
  predicate EnrichedRight(setting: Setting, t: TradeId, trade: T.Trade)
  {
    if Enrichable(setting, t)
    then CarriesFacts(setting, t, trade) || (trade.enrichment.None? && trade.acknowledgedAt.None?)
    else trade.enrichment.None?
  }

  predicate AllEnrichedRight(setting: Setting, db: Db)
  {
    forall t :: t in db.trades ==> EnrichedRight(setting, t, db.trades[t])
  }

  /** A delivery past its enrichment has left its trade enriched if it can be. */
  predicate PastEnrichment(setting: Setting, db: Db, t: TradeId, pc: Pc)
  {
    pc == ReadLog || pc == Acknowledge || pc == Mark || pc == Settle ==>
      t in db.trades && (Enrichable(setting, t) ==> CarriesFacts(setting, t, db.trades[t]))
  }

  ghost predicate EnrichmentInv(setting: Setting, s: System)
  {
    && AllEnrichedRight(setting, s.db)
    && forall id :: id in s.live ==> PastEnrichment(setting, s.db, s.live[id].trade, s.live[id].pc)
  }

  /** One step: its own trade stays right, and past enrichment it has been enriched. */
  lemma AdvanceEnriches(setting: Setting, db: Db, t: TradeId, pc: Pc, now: Time)
    requires AllEnrichedRight(setting, db) && PastEnrichment(setting, db, t, pc)
    requires pc == Enrich || pc == Reload ==> t in db.trades
    ensures var move := Advance(setting, db, t, pc, now);
            && AllEnrichedRight(setting, move.db)
            && (move.next.Some? ==>
                  && PastEnrichment(setting, move.db, t, move.next.value)
                  && (move.next.value == Enrich || move.next.value == Reload ==> t in move.db.trades))
  {
  }

  /** Enrichment is never undone. */
  lemma AdvanceKeepsEnriched(setting: Setting, db: Db, d: Delivery, now: Time, t: TradeId, pc: Pc)
    requires PastEnrichment(setting, db, t, pc)
    ensures PastEnrichment(setting, Advance(setting, db, d.trade, d.pc, now).db, t, pc)
  {
  }

  lemma ApplyKeepsEnrichment(setting: Setting, serial: bool, s: System, action: Action)
    requires Inv(setting, s) && EnrichmentInv(setting, s)
    ensures EnrichmentInv(setting, Apply(setting, serial, s, action))
  {
    match action
    case Step(id, now) =>
      if id in s.live {
        AdvanceEnriches(setting, s.db, s.live[id].trade, s.live[id].pc, now);
        forall x | x in s.live && x != id
          ensures PastEnrichment(setting, Advance(setting, s.db, s.live[id].trade, s.live[id].pc, now).db,
                                 s.live[x].trade, s.live[x].pc)
        {
          AdvanceKeepsEnriched(setting, s.db, s.live[id], now, s.live[x].trade, s.live[x].pc);
        }
      }
    case _ =>
  }

  lemma {:induction false} EveryRunKeepsEnrichment(setting: Setting, serial: bool, actions: seq<Action>)
    ensures EnrichmentInv(setting, Run(setting, serial, actions))
  {
    if actions != [] {
      var before := actions[..|actions| - 1];
      EveryRunKeepsEnrichment(setting, serial, before);
      EveryRunKeepsStoresAgreeing(setting, serial, before);
      ApplyKeepsEnrichment(setting, serial, Run(setting, serial, before), actions[|actions| - 1]);
    }
  }

  /** In every run of every interleaving of crashing deliveries: a marked trade with gas
      data the database can hold carries exactly those data, and a trade without such data
      carries none. */
  lemma MarkedTradesAreEnriched(setting: Setting, serial: bool, actions: seq<Action>, t: TradeId)
    requires t in Run(setting, serial, actions).db.trades
    ensures var trade := Run(setting, serial, actions).db.trades[t];
            match setting.facts(t).gas
            case Some(gas) =>
              if gas.effectiveGasPrice <= 0x7FFF_FFFF_FFFF_FFFF then
                trade.acknowledgedAt.Some? ==>
                  && trade.enrichment.Some?
                  && trade.enrichment.value.gasUsed == gas.gasUsed
                  && trade.enrichment.value.effectiveGasPrice == gas.effectiveGasPrice
                  && trade.enrichment.value.pythPrice == gas.pythPrice
              else trade.enrichment == None
            case None => trade.enrichment == None
  {
    EveryRunKeepsEnrichment(setting, serial, actions);
    assert EnrichedRight(setting, t, Run(setting, serial, actions).db.trades[t]);
  }

  /** The same of one delivery running alone, cut off anywhere. */
  lemma {:induction false} CutOffKeepsEnrichment(setting: Setting, db: Db, t: TradeId, pc: Pc, clock: Pc -> Time,
                                                 steps: nat)
    requires AllEnrichedRight(setting, db) && PastEnrichment(setting, db, t, pc)
    requires pc == Enrich || pc == Reload ==> t in db.trades
    ensures AllEnrichedRight(setting, RunFor(setting, db, t, pc, clock, steps).db)
    decreases steps
  {
    if steps > 0 {
      AdvanceEnriches(setting, db, t, pc, clock(pc));
      var move := Advance(setting, db, t, pc, clock(pc));
      if move.next.Some? {
        CutOffKeepsEnrichment(setting, move.db, t, move.next.value, clock, steps - 1);
      }
    }
  }

  /** And of one whose witness another delivery may have anticipated. */
  lemma WitnessKeepsEnrichment(setting: Setting, db: Db, t: TradeId, now: Time)
    requires AllEnrichedRight(setting, db) && db.TradeOf(t).None?
    ensures var sent := SendTrade(db, t, T.Witness(setting.facts(t).terms), now);
            sent.Ok? && AllEnrichedRight(setting, sent.value)
  {
  }
}
