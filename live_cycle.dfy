/** One live fetch cycle: every family's current report is fetched and published in a fixed
    order. The five-minute and hourly families share the cycle's outer exception handler; the
    adequacy and day-ahead families each sit in a `try` block of their own. */
module LiveCycle {
  import opened Wrappers
  import opened Records
  import opened RealtimeTotals
  import opened Publishing

  /** What each fetcher gave the cycle: its records, or an exception. */
  datatype Fetched = Fetched(
    prices: Live<seq<Record>>,
    totals: Live<Totals>,
    generators: Live<seq<Record>>,
    fuelMix: Live<seq<Record>>,
    interties: Live<seq<Record>>,
    adequacy: Live<seq<Record>>,
    dayAhead: Live<seq<Record>>)

  /** A family published under the outer handler: its list, even an empty one, when the fetch
      succeeded, and nothing when it raised. */
  function Unguarded(topic: string, fetched: Live<seq<Record>>): seq<Step> {
    if fetched.Served? then [Step(Batch(topic, fetched.doc), false)] else []
  }

  /** The realtime totals: demand to its own topic, then supply to the fuel-mix topic. */
  function TotalsSteps(fetched: Live<Totals>): seq<Step> {
    if fetched.Served?
    then [Step(Batch(ZonalDemandTopic, fetched.doc.demand), false), Step(Batch(FuelMixTopic, fetched.doc.supply), false)]
    else []
  }

  /** A family in a `try` block of its own, published only when it returned records. */
  function Guarded(topic: string, fetched: Live<seq<Record>>): seq<Step> {
    if fetched.Served? && fetched.doc != [] then [Step(Batch(topic, fetched.doc), true)] else []
  }

  /** The five-minute families, fetched together: zonal prices, realtime totals, generator
      output. */
  function FiveMinuteSteps(f: Fetched): seq<Step> {
    Unguarded(ZonalPricesTopic, f.prices) + (TotalsSteps(f.totals) + Unguarded(GeneratorOutputTopic, f.generators))
  }

  /** The hourly families, fetched together afterwards: fuel mix, intertie flow. */
  function HourlySteps(f: Fetched): seq<Step> {
    Unguarded(FuelMixTopic, f.fuelMix) + Unguarded(IntertieFlowTopic, f.interties)
  }

  /** The adequacy forecast, then the day-ahead zonal prices. */
  function GuardedSteps(f: Fetched): seq<Step> {
    Guarded(AdequacyTopic, f.adequacy) + Guarded(DayAheadOzpTopic, f.dayAhead)
  }

  /** The publish calls of one cycle, in order. */
  function CycleSteps(f: Fetched): seq<Step> {
    FiveMinuteSteps(f) + (HourlySteps(f) + GuardedSteps(f))
  }

  /** One `if not isinstance(result, Exception): publish_batch(...)` block; `ok` is false when
      the publish raised, which ends the cycle. */
  method PublishFamily(producer: Publisher, topic: string, fetched: Live<seq<Record>>) returns (ok: bool)
    modifies producer
    ensures ok <==> Completes(Unguarded(topic, fetched), producer.refused)
    ensures producer.log == old(producer.log) + Delivered(Unguarded(topic, fetched), producer.refused)
  {
    if fetched.Raised? {
      return true;
    }
    ok := producer.PublishBatch(topic, fetched.doc);
    assert Unguarded(topic, fetched)[0].batch.topic == topic;
  }

  /** The realtime totals block: two publishes under the outer handler. */
  method PublishTotals(producer: Publisher, fetched: Live<Totals>) returns (ok: bool)
    modifies producer
    ensures ok <==> Completes(TotalsSteps(fetched), producer.refused)
    ensures producer.log == old(producer.log) + Delivered(TotalsSteps(fetched), producer.refused)
  {
    if fetched.Raised? {
      return true;
    }
    ghost var steps := TotalsSteps(fetched);
    assert steps[1..][1..] == [];
    ok := producer.PublishBatch(ZonalDemandTopic, fetched.doc.demand);
    if !ok {
      assert !steps[0].guarded && Raises(steps[0].batch, producer.refused);
      return;
    }
    ok := producer.PublishBatch(FuelMixTopic, fetched.doc.supply);
    assert !ok ==> !steps[1].guarded && Raises(steps[1].batch, producer.refused);
  }

  /** A `try` block of its own: an empty result is not published, and a publish that raises is
      caught there. */
  method PublishGuarded(producer: Publisher, topic: string, fetched: Live<seq<Record>>)
    modifies producer
    ensures producer.log == old(producer.log) + Delivered(Guarded(topic, fetched), producer.refused)
  {
    if fetched.Served? && fetched.doc != [] {
      var ok := producer.PublishBatch(topic, fetched.doc);
    }
  }

  /** One block of the cycle: when the log so far and what remains account for the whole
      cycle, a block that completes leaves the rest to do, and one that fails leaves nothing. */
  lemma Advance(log0: seq<Batch>, all: seq<Batch>, log: seq<Batch>, steps: seq<Step>, rest: seq<Step>, refused: set<string>)
    requires log0 + all == log + Delivered(steps + rest, refused)
    ensures Completes(steps, refused) ==> log0 + all == (log + Delivered(steps, refused)) + Delivered(rest, refused)
    ensures !Completes(steps, refused) ==> log0 + all == log + Delivered(steps, refused)
  {
    DeliveredAppend(steps, rest, refused);
    AppendAssoc(log, Delivered(steps, refused), Delivered(rest, refused));
    assert Delivered(steps, refused) + [] == Delivered(steps, refused);
  }

  /** The five-minute publishes. */
  method PublishFiveMinute(f: Fetched, producer: Publisher) returns (ok: bool)
    modifies producer
    ensures ok <==> Completes(FiveMinuteSteps(f), producer.refused)
    ensures producer.log == old(producer.log) + Delivered(FiveMinuteSteps(f), producer.refused)
  {
    ghost var log0 := producer.log;
    ghost var refused := producer.refused;
    ghost var rest := TotalsSteps(f.totals) + Unguarded(GeneratorOutputTopic, f.generators);
    ghost var all := Delivered(FiveMinuteSteps(f), refused);
    ghost var log := producer.log;
    ok := PublishFamily(producer, ZonalPricesTopic, f.prices);
    Advance(log0, all, log, Unguarded(ZonalPricesTopic, f.prices), rest, refused);
    CompletesAppend(Unguarded(ZonalPricesTopic, f.prices), rest, refused);
    if !ok {
      return;
    }
    log := producer.log;
    ok := PublishTotals(producer, f.totals);
    Advance(log0, all, log, TotalsSteps(f.totals), Unguarded(GeneratorOutputTopic, f.generators), refused);
    CompletesAppend(TotalsSteps(f.totals), Unguarded(GeneratorOutputTopic, f.generators), refused);
    if !ok {
      return;
    }
    log := producer.log;
    ok := PublishFamily(producer, GeneratorOutputTopic, f.generators);
    Advance(log0, all, log, Unguarded(GeneratorOutputTopic, f.generators), [], refused);
    assert Unguarded(GeneratorOutputTopic, f.generators) + [] == Unguarded(GeneratorOutputTopic, f.generators);
  }

  /** The hourly publishes. */
  method PublishHourly(f: Fetched, producer: Publisher) returns (ok: bool)
    modifies producer
    ensures ok <==> Completes(HourlySteps(f), producer.refused)
    ensures producer.log == old(producer.log) + Delivered(HourlySteps(f), producer.refused)
  {
    ghost var log0 := producer.log;
    ghost var refused := producer.refused;
    ghost var all := Delivered(HourlySteps(f), refused);
    ghost var log := producer.log;
    ok := PublishFamily(producer, FuelMixTopic, f.fuelMix);
    Advance(log0, all, log, Unguarded(FuelMixTopic, f.fuelMix), Unguarded(IntertieFlowTopic, f.interties), refused);
    CompletesAppend(Unguarded(FuelMixTopic, f.fuelMix), Unguarded(IntertieFlowTopic, f.interties), refused);
    if !ok {
      return;
    }
    log := producer.log;
    ok := PublishFamily(producer, IntertieFlowTopic, f.interties);
    Advance(log0, all, log, Unguarded(IntertieFlowTopic, f.interties), [], refused);
    assert Unguarded(IntertieFlowTopic, f.interties) + [] == Unguarded(IntertieFlowTopic, f.interties);
  }

  /** The adequacy and day-ahead blocks; neither can end the cycle. */
  method PublishGuardedFamilies(f: Fetched, producer: Publisher)
    modifies producer
    ensures producer.log == old(producer.log) + Delivered(GuardedSteps(f), producer.refused)
  {
    ghost var log0 := producer.log;
    PublishGuarded(producer, AdequacyTopic, f.adequacy);
    ghost var log1 := producer.log;
    PublishGuarded(producer, DayAheadOzpTopic, f.dayAhead);
    DeliveredAppend(Guarded(AdequacyTopic, f.adequacy), Guarded(DayAheadOzpTopic, f.dayAhead), producer.refused);
    AppendAssoc(log0, Delivered(Guarded(AdequacyTopic, f.adequacy), producer.refused), Delivered(Guarded(DayAheadOzpTopic, f.dayAhead), producer.refused));
  }

  /** `fetch_all_reports`, given what each fetcher returned. A publish that raises under the
      outer handler ends the cycle; the guarded families lose only their own batch. */
  method FetchAllReports(f: Fetched, producer: Publisher)
    modifies producer
    ensures producer.log == old(producer.log) + Delivered(CycleSteps(f), producer.refused)
  {
    ghost var log0 := producer.log;
    ghost var refused := producer.refused;
    ghost var all := Delivered(CycleSteps(f), refused);
    ghost var log := producer.log;
    var ok := PublishFiveMinute(f, producer);
    Advance(log0, all, log, FiveMinuteSteps(f), HourlySteps(f) + GuardedSteps(f), refused);
    if !ok {
      return;
    }
    log := producer.log;
    ok := PublishHourly(f, producer);
    Advance(log0, all, log, HourlySteps(f), GuardedSteps(f), refused);
    if !ok {
      return;
    }
    log := producer.log;
    PublishGuardedFamilies(f, producer);
  }

  /** The batches of a list of steps none of which fails. */
  function Sent(steps: seq<Step>): seq<Batch> {
    Delivered(steps, {})
  }

  lemma SentAppend(s1: seq<Step>, s2: seq<Step>)
    ensures Sent(s1 + s2) == Sent(s1) + Sent(s2)
  {
    DeliveredAppend(s1, s2, {});
  }

  /** What each kind of block sends when no publish fails. */
  lemma SentUnguarded(topic: string, fetched: Live<seq<Record>>)
    ensures forall b :: b in Sent(Unguarded(topic, fetched)) <==> fetched.Served? && b == Batch(topic, fetched.doc)
  {
  }

  lemma SentGuarded(topic: string, fetched: Live<seq<Record>>)
    ensures forall b :: b in Sent(Guarded(topic, fetched))
                    <==> fetched.Served? && fetched.doc != [] && b == Batch(topic, fetched.doc)
  {
  }

  lemma SentTotals(fetched: Live<Totals>)
    ensures forall b :: b in Sent(TotalsSteps(fetched))
                    <==> (fetched.Served? && (b == Batch(ZonalDemandTopic, fetched.doc.demand)
                                             || b == Batch(FuelMixTopic, fetched.doc.supply)))
  {
    if fetched.Served? {
      var t := TotalsSteps(fetched);
      assert t == [t[0]] + [t[1]];
      SentAppend([t[0]], [t[1]]);
    }
  }

  /** With no publish failing, every block runs: the cycle delivers each family's batches in
      the order of the code. */
  lemma CycleWithoutFailures(f: Fetched)
    ensures Sent(CycleSteps(f))
         == Sent(Unguarded(ZonalPricesTopic, f.prices))
          + (Sent(TotalsSteps(f.totals)) + Sent(Unguarded(GeneratorOutputTopic, f.generators)))
          + ((Sent(Unguarded(FuelMixTopic, f.fuelMix)) + Sent(Unguarded(IntertieFlowTopic, f.interties)))
          + (Sent(Guarded(AdequacyTopic, f.adequacy)) + Sent(Guarded(DayAheadOzpTopic, f.dayAhead))))
  {
    SentAppend(Unguarded(ZonalPricesTopic, f.prices), TotalsSteps(f.totals) + Unguarded(GeneratorOutputTopic, f.generators));
    SentAppend(TotalsSteps(f.totals), Unguarded(GeneratorOutputTopic, f.generators));
    SentAppend(Unguarded(FuelMixTopic, f.fuelMix), Unguarded(IntertieFlowTopic, f.interties));
    SentAppend(Guarded(AdequacyTopic, f.adequacy), Guarded(DayAheadOzpTopic, f.dayAhead));
    SentAppend(HourlySteps(f), GuardedSteps(f));
    SentAppend(FiveMinuteSteps(f), HourlySteps(f) + GuardedSteps(f));
  }

  /** With no publish failing, a batch is sent exactly when one of the blocks sends it. */
  lemma CycleSends(f: Fetched)
    ensures forall b :: b in Sent(CycleSteps(f)) <==>
      || (f.prices.Served? && b == Batch(ZonalPricesTopic, f.prices.doc))
      || (f.totals.Served? && (b == Batch(ZonalDemandTopic, f.totals.doc.demand) || b == Batch(FuelMixTopic, f.totals.doc.supply)))
      || (f.generators.Served? && b == Batch(GeneratorOutputTopic, f.generators.doc))
      || (f.fuelMix.Served? && b == Batch(FuelMixTopic, f.fuelMix.doc))
      || (f.interties.Served? && b == Batch(IntertieFlowTopic, f.interties.doc))
      || (f.adequacy.Served? && f.adequacy.doc != [] && b == Batch(AdequacyTopic, f.adequacy.doc))
      || (f.dayAhead.Served? && f.dayAhead.doc != [] && b == Batch(DayAheadOzpTopic, f.dayAhead.doc))
  {
    CycleWithoutFailures(f);
    SentUnguarded(ZonalPricesTopic, f.prices);
    SentTotals(f.totals);
    SentUnguarded(GeneratorOutputTopic, f.generators);
    SentUnguarded(FuelMixTopic, f.fuelMix);
    SentUnguarded(IntertieFlowTopic, f.interties);
    SentGuarded(AdequacyTopic, f.adequacy);
    SentGuarded(DayAheadOzpTopic, f.dayAhead);
  }

  /** With no publish failing, the five-minute families are published whenever their fetch
      succeeded, even with no records, and not at all when it raised, whatever the other
      families did. */
  lemma FiveMinutePublished(f: Fetched)
    ensures var out := Sent(CycleSteps(f));
      && (forall rs :: Batch(ZonalPricesTopic, rs) in out <==> f.prices == Served(rs))
      && (forall rs :: Batch(ZonalDemandTopic, rs) in out <==> f.totals.Served? && f.totals.doc.demand == rs)
      && (forall rs :: Batch(GeneratorOutputTopic, rs) in out <==> f.generators == Served(rs))
  {
    CycleSends(f);
    TopicsDistinct();
  }

  /** The same for the hourly families; the fuel-mix topic also carries the realtime supply. */
  lemma HourlyPublished(f: Fetched)
    ensures var out := Sent(CycleSteps(f));
      && (forall rs :: Batch(FuelMixTopic, rs) in out
                   <==> (f.totals.Served? && f.totals.doc.supply == rs) || f.fuelMix == Served(rs))
      && (forall rs :: Batch(IntertieFlowTopic, rs) in out <==> f.interties == Served(rs))
  {
    CycleSends(f);
    TopicsDistinct();
  }

  /** With no publish failing, the adequacy and day-ahead families are published only when
      their fetch returned records. */
  lemma GuardedPublished(f: Fetched)
    ensures var out := Sent(CycleSteps(f));
      && (forall rs :: Batch(AdequacyTopic, rs) in out <==> f.adequacy == Served(rs) && rs != [])
      && (forall rs :: Batch(DayAheadOzpTopic, rs) in out <==> f.dayAhead == Served(rs) && rs != [])
  {
    CycleSends(f);
    TopicsDistinct();
  }

  /** A publish that raises under the outer handler ends the cycle: when the zonal prices
      cannot be published nothing is, and when the demand list cannot, only the prices are. An
      empty list makes no produce call and cannot raise. */
  lemma UnguardedFailureEndsCycle(f: Fetched, refused: set<string>)
    ensures f.prices.Served? && f.prices.doc != [] && ZonalPricesTopic in refused
            ==> Delivered(CycleSteps(f), refused) == []
    ensures f.totals.Served? && f.totals.doc.demand != [] && ZonalDemandTopic in refused
            ==> Delivered(CycleSteps(f), refused) == Delivered(Unguarded(ZonalPricesTopic, f.prices), refused)
  {
    var p := Unguarded(ZonalPricesTopic, f.prices);
    var t := TotalsSteps(f.totals);
    var rest := HourlySteps(f) + GuardedSteps(f);
    var g := Unguarded(GeneratorOutputTopic, f.generators);
    DeliveredAppend(FiveMinuteSteps(f), rest, refused);
    DeliveredAppend(p, t + g, refused);
    DeliveredAppend(t, g, refused);
    if f.prices.Served? && f.prices.doc != [] && ZonalPricesTopic in refused {
      assert !Completes(p, refused) by {
        assert !p[0].guarded;
      }
      CompletesAppend(p, t + g, refused);
    }
    if f.totals.Served? && f.totals.doc.demand != [] && ZonalDemandTopic in refused {
      assert !Completes(t, refused) by {
        assert !t[0].guarded;
      }
      CompletesAppend(t, g, refused);
      CompletesAppend(p, t + g, refused);
      assert Delivered(t, refused) == [];
      assert Delivered(p, refused) + [] == Delivered(p, refused);
    }
  }

  /** An empty zonal-price list makes no produce call, so even a topic that refuses records
      cannot end the cycle there: the empty batch is logged and the cycle goes on as if the
      prices had not been fetched. */
  lemma EmptyPricesContinue(f: Fetched, refused: set<string>)
    requires f.prices == Served([])
    ensures Delivered(CycleSteps(f), refused)
         == [Batch(ZonalPricesTopic, [])] + Delivered(CycleSteps(f.(prices := Raised)), refused)
  {
    var f1 := f.(prices := Raised);
    var p := Unguarded(ZonalPricesTopic, f.prices);
    var tail := TotalsSteps(f.totals) + Unguarded(GeneratorOutputTopic, f.generators);
    var rest := HourlySteps(f) + GuardedSteps(f);
    assert CycleSteps(f) == p + (tail + rest);
    assert CycleSteps(f1) == tail + rest;
    DeliveredAppend(p, tail + rest, refused);
    assert Completes(p, refused);
  }

  /** A publish that raises inside the adequacy or day-ahead block costs only that block's
      batch: the cycle delivers what it would have had that family not been fetched at all. */
  lemma GuardedFailureSkipsOnlyItsBatch(f: Fetched, refused: set<string>)
    ensures AdequacyTopic in refused
            ==> Delivered(CycleSteps(f), refused) == Delivered(CycleSteps(f.(adequacy := Raised)), refused)
    ensures DayAheadOzpTopic in refused
            ==> Delivered(CycleSteps(f), refused) == Delivered(CycleSteps(f.(dayAhead := Raised)), refused)
  {
    var a := Guarded(AdequacyTopic, f.adequacy);
    var d := Guarded(DayAheadOzpTopic, f.dayAhead);
    if AdequacyTopic in refused {
      var f1 := f.(adequacy := Raised);
      DeliveredAppend(a, d, refused);
      assert GuardedSteps(f1) == [] + d;
      SameTail(HourlySteps(f), GuardedSteps(f), GuardedSteps(f1), refused);
      SameTail(FiveMinuteSteps(f), HourlySteps(f) + GuardedSteps(f), HourlySteps(f) + GuardedSteps(f1), refused);
    }
    if DayAheadOzpTopic in refused {
      var f2 := f.(dayAhead := Raised);
      DeliveredAppend(a, d, refused);
      DeliveredAppend(a, [], refused);
      assert GuardedSteps(f2) == a + [];
      SameTail(HourlySteps(f), GuardedSteps(f), GuardedSteps(f2), refused);
      SameTail(FiveMinuteSteps(f), HourlySteps(f) + GuardedSteps(f), HourlySteps(f) + GuardedSteps(f2), refused);
    }
  }
}
