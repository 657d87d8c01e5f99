/**
 Concrete streams on which the recompute and the stated rules of attribution differ.
 */
module AttributionExamples {
  import opened Common
  import opened Attribution
  import opened AttributionTheorems

  lemma Extend(events: seq<Event>, event: Event)
    ensures Run(events + [event]) == React(Run(events), event)
    ensures PoolAfter(events + [event]) == Follow(PoolAfter(events), event)
    ensures InOrder(events + [event]) <==> InOrder(events) && !OutOfOrder(Run(events), event)
    ensures Orderly(events + [event]) <==>
              && Orderly(events)
              && (Clock(event).Some? ==> LaterThanAll(events, Clock(event).value))
              && (event.Fill? ==> NewTrade(events, event.trade) && event.trade.logIndex <= I64_MAX)
              && (event.Placed? ==> NewOrder(events, event.order))
              && !LateFill(Run(events), event)
  {
    assert (events + [event])[..|events|] == events;
  }

  const SEEN := Fill(TradeId(1, 0), 1, 1)
  const COVERED := Placed(7, 2)
  const GIVEN_UP := Failed(7, 3)
  const SEEN_ROW := FillRow(TradeId(1, 0), Some(1), Some(1))
  const COVERED_ROW := CycleRow(7, Some(2), 1, Some(Window(1, 1)), None, None)

  lemma OneFillUncovered()
    ensures Uncovered(Tables([SEEN_ROW], [], [])) == Ok([UncoveredFill(1, 1)])
    ensures CoveredFills([UncoveredFill(1, 1)]) == Some(Window(1, 1))
  {
    var t := Tables([SEEN_ROW], [], []);
    assert KeptOf(t.fills, 0, None) == [] && Kept(t.fills, None) == [UncoveredFill(1, 1)];
    assert [UncoveredFill(1, 1)][..0] == [];
  }

  lemma FirstSteps()
    ensures React(Tables([], [], []), SEEN) == Tables([SEEN_ROW], [], [])
    ensures React(Tables([SEEN_ROW], [], []), COVERED) == Tables([SEEN_ROW], [COVERED_ROW], [])
  {
    OneFillUncovered();
  }

  lemma JustFill()
    ensures Orderly([SEEN]) && InOrder([SEEN]) && Run([SEEN]) == Tables([SEEN_ROW], [], [])
    ensures PoolAfter([SEEN]) == Pool([UncoveredFill(1, 1)], map[])
  {
    Extend([], SEEN);
    assert [] + [SEEN] == [SEEN];
    FirstSteps();
  }

  lemma FillAndPlace()
    ensures Orderly([SEEN] + [COVERED]) && InOrder([SEEN] + [COVERED])
    ensures Run([SEEN] + [COVERED]) == Tables([SEEN_ROW], [COVERED_ROW], [])
    ensures PoolAfter([SEEN] + [COVERED]) == Pool([], map[7 := [UncoveredFill(1, 1)]])
  {
    JustFill();
    FirstSteps();
    Extend([SEEN], COVERED);
  }

  lemma FillPlaceAndFail()
    ensures var events := [SEEN] + [COVERED] + [GIVEN_UP];
            && Orderly(events) && InOrder(events)
            && Run(events) == Tables([SEEN_ROW], [COVERED_ROW.(failedAt := Some(3))], [])
            && PoolAfter(events).waiting == [UncoveredFill(1, 1)]
  {
    FillAndPlace();
    GiveUp();
    Extend([SEEN] + [COVERED], GIVEN_UP);
  }

  lemma GiveUp()
    ensures var t := Tables([SEEN_ROW], [COVERED_ROW], []);
            React(t, GIVEN_UP) == t.(cycles := [COVERED_ROW.(failedAt := Some(3))]) && !OutOfOrder(t, GIVEN_UP)
  {
    var t := Tables([SEEN_ROW], [COVERED_ROW], []);
    assert t.cycles[0] == COVERED_ROW;
    assert React(t, GIVEN_UP).cycles == [COVERED_ROW.(failedAt := Some(3))];
  }

  /** A stream that is orderly and in order, and a late fill after which recompute and
      rules differ: the fill handed back by the failure is gone from the recompute. */
  lemma LateFillLosesPool()
    ensures var events := [SEEN] + [COVERED] + [GIVEN_UP];
            && Orderly(events) && InOrder(events) && LateFill(Run(events), Filled(7, 4))
            && PoolAfter(events).waiting == [UncoveredFill(1, 1)]
            && !Agrees(events + [Filled(7, 4)])
  {
    FillPlaceAndFail();
    LateFillAgreesIff([SEEN] + [COVERED] + [GIVEN_UP], Filled(7, 4));
  }

  const SEEN_AGAIN := Fill(TradeId(2, 0), 3, 3)
  const COVERED_AGAIN := Placed(8, 4)
  const SECOND_ROW := FillRow(TradeId(2, 0), Some(3), Some(3))
  const YOUNGER_ROW := CycleRow(8, Some(4), 1, Some(Window(3, 3)), None, None)

  lemma SecondFillUncovered()
    ensures Uncovered(Tables([SEEN_ROW, SECOND_ROW], [COVERED_ROW], [])) == Ok([UncoveredFill(3, 3)])
    ensures CoveredFills([UncoveredFill(3, 3)]) == Some(Window(3, 3))
  {
    var t := Tables([SEEN_ROW, SECOND_ROW], [COVERED_ROW], []);
    assert KeptOf(t.fills, 0, None) == [] && KeptOf(t.fills, 1, None) == [UncoveredFill(1, 1)];
    assert Kept(t.fills, None) == [UncoveredFill(1, 1), UncoveredFill(3, 3)];
    assert Before(t.cycles, 1, None) == Before(t.cycles, 0, None) + Weight(COVERED_ROW, None);
    assert [UncoveredFill(3, 3)][..0] == [];
  }

  lemma SecondSteps()
    ensures React(Tables([SEEN_ROW], [COVERED_ROW], []), SEEN_AGAIN)
         == Tables([SEEN_ROW, SECOND_ROW], [COVERED_ROW], [])
    ensures React(Tables([SEEN_ROW, SECOND_ROW], [COVERED_ROW], []), COVERED_AGAIN)
         == Tables([SEEN_ROW, SECOND_ROW], [COVERED_ROW, YOUNGER_ROW], [])
  {
    SecondFillUncovered();
    assert [SEEN_ROW] + [SECOND_ROW] == [SEEN_ROW, SECOND_ROW];
    assert [COVERED_ROW] + [YOUNGER_ROW] == [COVERED_ROW, YOUNGER_ROW];
  }

  lemma SecondFill()
    ensures var events := [SEEN] + [COVERED] + [SEEN_AGAIN];
            && Orderly(events) && InOrder(events)
            && Run(events) == Tables([SEEN_ROW, SECOND_ROW], [COVERED_ROW], [])
            && PoolAfter(events) == Pool([UncoveredFill(3, 3)], map[7 := [UncoveredFill(1, 1)]])
  {
    FillAndPlace();
    SecondSteps();
    Extend([SEEN] + [COVERED], SEEN_AGAIN);
  }

  lemma TwoInFlight()
    ensures var events := [SEEN] + [COVERED] + [SEEN_AGAIN] + [COVERED_AGAIN];
            && Orderly(events) && InOrder(events)
            && Run(events) == Tables([SEEN_ROW, SECOND_ROW], [COVERED_ROW, YOUNGER_ROW], [])
            && 7 in PoolAfter(events).inFlight && PoolAfter(events).inFlight[7] == [UncoveredFill(1, 1)]
  {
    SecondFill();
    SecondSteps();
    Extend([SEEN] + [COVERED] + [SEEN_AGAIN], COVERED_AGAIN);
  }

  /** Two batches in flight and the older one fails: recompute and rules differ. */
  lemma OlderBatchComesBackWrong()
    ensures var events := [SEEN] + [COVERED] + [SEEN_AGAIN] + [COVERED_AGAIN];
            Orderly(events + [Failed(7, 5)]) && InOrder(events) && !Agrees(events + [Failed(7, 5)])
  {
    var events := [SEEN] + [COVERED] + [SEEN_AGAIN] + [COVERED_AGAIN];
    TwoInFlight();
    Extend(events, Failed(7, 5));
    YoungerWeighs();
    GivesBackOwnBatchIff(events, Failed(7, 5));
  }

  lemma YoungerWeighs()
    ensures var t := Tables([SEEN_ROW, SECOND_ROW], [COVERED_ROW, YOUNGER_ROW], []);
            Present(t, 7) && LaterWeight(t, 7) == 1
  {
    var t := Tables([SEEN_ROW, SECOND_ROW], [COVERED_ROW, YOUNGER_ROW], []);
    assert t.cycles[0].order == 7 && Find(t.cycles, 7) == 0;
    assert Before(t.cycles, 2, None) == Before(t.cycles, 1, None) + Weight(YOUNGER_ROW, None);
  }
}
