/**
 The OnChainTrade aggregate: one event-sourced record per onchain fill, witnessed
 once, enriched at most once and acknowledged at most once.
 */
module OnChainTrades {
  import opened Common

  /** What the chain says about a fill; fixed the moment the trade is witnessed. */
  datatype FillTerms = FillTerms(
    symbol: Symbol,
    amount: real,
    direction: Direction,
    priceUsdc: real,
    blockNumber: nat,
    blockTimestamp: Time)

  datatype Enrichment = Enrichment(
    gasUsed: nat,
    effectiveGasPrice: nat,
    pythPrice: real,
    enrichedAt: Time)

  datatype Trade = Trade(
    terms: FillTerms,
    filledAt: Time,
    enrichment: Option<Enrichment>,
    acknowledgedAt: Option<Time>)
  {
    predicate IsEnriched() { enrichment.Some? }

    predicate IsAcknowledged() { acknowledgedAt.Some? }
  }

  datatype Event =
    | Filled(terms: FillTerms, filledAt: Time)
    | Enriched(enrichment: Enrichment)
    | Acknowledged(acknowledgedAt: Time)

  datatype Command =
    | Witness(witnessed: FillTerms)
    | Enrich(gasUsed: nat, effectiveGasPrice: nat, pythPrice: real)
    | Acknowledge

  datatype Error =
    | NotFilled
    | AlreadyFilled
    | AlreadyEnriched
    | AlreadyAcknowledged
    | GasPriceOutOfRange(price: nat)

  function Originate(event: Event): Option<Trade>
  {
    match event
    case Filled(terms, filledAt) => Some(Trade(terms, filledAt, None, None))
    case Enriched(_) => None
    case Acknowledged(_) => None
  }

  function Evolve(trade: Trade, event: Event): Option<Trade>
  {
    match event
    case Enriched(enrichment) => Some(trade.(enrichment := Some(enrichment)))
    case Acknowledged(at) => Some(trade.(acknowledgedAt := Some(at)))
    case Filled(_, _) => None
  }

  function Initialize(command: Command, now: Time): Result<seq<Event>, Error>
  {
    match command
    case Witness(terms) => Ok([Filled(terms, now)])
    case Enrich(_, _, _) => Err(NotFilled)
    case Acknowledge => Err(NotFilled)
  }

  function Transition(trade: Trade, command: Command, now: Time): Result<seq<Event>, Error>
  {
    match command
    case Witness(_) => Err(AlreadyFilled)
    case Enrich(gasUsed, price, pyth) =>
      if trade.IsEnriched() then Err(AlreadyEnriched)
      else if price > I64_MAX then Err(GasPriceOutOfRange(price))
      else Ok([Enriched(Enrichment(gasUsed, price, pyth, now))])
    case Acknowledge =>
      if trade.IsAcknowledged() then Err(AlreadyAcknowledged)
      else Ok([Acknowledged(now)])
  }

  function Handle(state: Option<Trade>, command: Command, now: Time): Result<seq<Event>, Error>
  {
    match state
    case None => Initialize(command, now)
    case Some(trade) => Transition(trade, command, now)
  }

  /** Loading an aggregate: absent, live, or unreadable because an event did not apply. */
  datatype Loaded = Missing | Live(trade: Trade) | Broken

  function ApplyEvent(loaded: Loaded, event: Event): Loaded
  {
    var next := match loaded
      case Missing => Originate(event)
      case Live(trade) => Evolve(trade, event)
      case Broken => None;
    match next
    case None => Broken
    case Some(trade) => Live(trade)
  }

  function Replay(log: seq<Event>): Loaded
  {
    if log == [] then Missing
    else ApplyEvent(Replay(log[..|log| - 1]), log[|log| - 1])
  }

  /** One command against the live state: the state it leaves behind, or the rejection. */
  function Send(state: Option<Trade>, command: Command, now: Time): Result<Trade, Error>
  {
    match Handle(state, command, now)
    case Err(error) => Err(error)
    case Ok(events) =>
      // Every accepted command emits exactly one event (see AcceptedEventsApply).
      var applied := if |events| != 1 then None
                     else if state.None? then Originate(events[0])
                     else Evolve(state.value, events[0]);
      if applied.Some? then Ok(applied.value) else Err(NotFilled)
  }

  /** A command together with the clock reading its handler takes. */
  datatype Timed = Timed(command: Command, now: Time)

  function AsLoaded(state: Option<Trade>): Loaded
  {
    match state
    case None => Missing
    case Some(trade) => Live(trade)
  }

  /** The live state after a command sequence; a rejected command changes nothing. */
  function RunState(commands: seq<Timed>): Option<Trade>
  {
    if commands == [] then None
    else
      var before := RunState(commands[..|commands| - 1]);
      var last := commands[|commands| - 1];
      match Send(before, last.command, last.now)
      case Ok(trade) => Some(trade)
      case Err(_) => before
  }

  /** The event log the same command sequence leaves in the store. */
  function RunLog(commands: seq<Timed>): seq<Event>
  {
    if commands == [] then []
    else
      var before := commands[..|commands| - 1];
      var last := commands[|commands| - 1];
      match Handle(RunState(before), last.command, last.now)
      case Ok(events) => RunLog(before) + events
      case Err(_) => RunLog(before)
  }

  predicate StorableGas(event: Event)
  {
    event.Enriched? ==> event.enrichment.effectiveGasPrice <= I64_MAX
  }

  /** Every log shape the aggregate may have: one Filled first, then at most one
      Enriched and at most one Acknowledged, in either order. */
  predicate WellFormed(log: seq<Event>)
  {
    && (log != [] ==> log[0].Filled?)
    && (forall i :: 1 <= i < |log| ==> !log[i].Filled? && StorableGas(log[i]))
    && (forall i, j :: 1 <= i < j < |log| && log[i].Enriched? ==> log[j].Acknowledged?)
    && (forall i, j :: 1 <= i < j < |log| && log[i].Acknowledged? ==> log[j].Enriched?)
  }

  /** What a live trade says about the log behind it, read off event by event. */
  predicate Summarises(trade: Trade, log: seq<Event>)
  {
    && log != [] && log[0] == Filled(trade.terms, trade.filledAt)
    && (trade.IsEnriched() <==> exists i :: 1 <= i < |log| && log[i].Enriched?)
    && (trade.IsAcknowledged() <==> exists i :: 1 <= i < |log| && log[i].Acknowledged?)
    && (forall i :: 1 <= i < |log| && log[i].Enriched? ==> trade.enrichment == Some(log[i].enrichment))
    && (forall i :: 1 <= i < |log| && log[i].Acknowledged? ==> trade.acknowledgedAt == Some(log[i].acknowledgedAt))
  }

  lemma AcceptedEventsApply(state: Option<Trade>, command: Command, now: Time)
    ensures Send(state, command, now).Ok? <==> Handle(state, command, now).Ok?
    ensures Handle(state, command, now).Ok? ==>
              var events := Handle(state, command, now).value;
              && |events| == 1
              && ApplyEvent(AsLoaded(state), events[0]) == Live(Send(state, command, now).value)
  {
  }

  lemma {:induction false} ReplayAppend(log: seq<Event>, event: Event)
    ensures Replay(log + [event]) == ApplyEvent(Replay(log), event)
  {
    assert (log + [event])[..|log|] == log;
  }

  /** Over every command sequence the stored log replays to the live state, never
      becoming unreadable; it has one of the well-formed shapes; and the live state
      says about the fill exactly what its events say. */
  lemma {:induction false} EveryRunReplays(commands: seq<Timed>)
    ensures Replay(RunLog(commands)) == AsLoaded(RunState(commands))
    ensures WellFormed(RunLog(commands))
    ensures RunState(commands).None? <==> RunLog(commands) == []
    ensures RunState(commands).Some? ==> Summarises(RunState(commands).value, RunLog(commands))
  {
    if commands != [] {
      var before := commands[..|commands| - 1];
      var last := commands[|commands| - 1];
      EveryRunReplays(before);
      AcceptedEventsApply(RunState(before), last.command, last.now);
      match Handle(RunState(before), last.command, last.now)
      case Err(_) =>
      case Ok(events) =>
        var log, event := RunLog(before), events[0];
        assert events == [event];
        ReplayAppend(log, event);
        var longer := log + [event];
        assert longer[..|log|] == log && longer[|log|] == event;
        if RunState(before).Some? {
          ExtendSummary(RunState(before).value, log, event);
        }
    }
  }

  lemma ExtendSummary(trade: Trade, log: seq<Event>, event: Event)
    requires WellFormed(log) && Summarises(trade, log)
    requires !event.Filled? && StorableGas(event)
    requires event.Enriched? ==> !trade.IsEnriched()
    requires event.Acknowledged? ==> !trade.IsAcknowledged()
    ensures WellFormed(log + [event])
    ensures Evolve(trade, event).Some? && Summarises(Evolve(trade, event).value, log + [event])
  {
    var longer := log + [event];
    assert longer[|log|] == event;
    assert forall i :: 0 <= i < |log| ==> longer[i] == log[i];
  }

  /** The command that emits a given event again. */
  function CommandFor(event: Event): Timed
  {
    match event
    case Filled(terms, at) => Timed(Witness(terms), at)
    case Enriched(e) => Timed(Enrich(e.gasUsed, e.effectiveGasPrice, e.pythPrice), e.enrichedAt)
    case Acknowledged(at) => Timed(Acknowledge, at)
  }

  function CommandsFor(log: seq<Event>): seq<Timed>
  {
    seq(|log|, i requires 0 <= i < |log| => CommandFor(log[i]))
  }

  /** The converse: every well-formed log is left behind by some command sequence,
      so WellFormed is exactly the set of logs the aggregate can have. */
  lemma {:induction false} EveryWellFormedLogIsReached(log: seq<Event>)
    requires WellFormed(log)
    ensures RunLog(CommandsFor(log)) == log
  {
    if log != [] {
      var shorter, event := log[..|log| - 1], log[|log| - 1];
      EveryWellFormedLogIsReached(shorter);
      var commands := CommandsFor(log);
      assert commands[..|commands| - 1] == CommandsFor(shorter);
      assert commands[|commands| - 1] == CommandFor(event);
      EveryRunReplays(CommandsFor(shorter));
      assert log == shorter + [event];
    }
  }
}
