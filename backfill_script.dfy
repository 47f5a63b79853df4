/** The stand-alone RealtimeTotals backfill script: all 24 hourly archives of one given day,
    fetched one after another and published as one demand and one supply batch. */
module BackfillScript {
  import opened Wrappers
  import opened Calendar
  import opened Records
  import opened Retry
  import opened RealtimeTotals
  import opened Publishing
  import opened Backfill

  /** The archives of one day: hours 1..24 of the compact date, in order. */
  function DayArchives(compact: string): seq<(string, int)> {
    DayHours(compact, 1, 25)
  }

  /** A day has 24 archives, one per hour, ascending. */
  lemma DayArchivesSpec(compact: string)
    ensures var list := DayArchives(compact);
      && |list| == 24 && ArchiveHours(list)
      && forall k :: 0 <= k < 24 ==> list[k] == (compact, k + 1)
  {
  }

  /** The publish calls of the script: the non-empty lists among demand and supply, in that
      order. */
  function DateBatches(totals: Totals): seq<Batch> {
    [Batch(ZonalDemandTopic, totals.demand), Batch(FuelMixTopic, totals.supply)]
  }

  /** What the script publishes for a valid date. */
  ghost function DayDelivered(server: string -> Attempt<TotalsDoc>, date: Date, refused: set<string>): seq<Batch>
    requires ValidDate(date)
  {
    DayArchivesSpec(FormatCompact(date));
    Delivered(NonEmptySteps(DateBatches(ArchivesTotals(server, DayArchives(FormatCompact(date))))), refused)
  }

  /** `backfill_date(date_str)`: a text that is not a "%Y-%m-%d" date is only logged; otherwise
      the day's archives are fetched hour by hour and the non-empty lists published. A publish
      that raises ends the script. */
  method BackfillDate(dateStr: string, server: string -> Attempt<TotalsDoc>, producer: Publisher)
    modifies producer
    ensures ParseIsoDate(dateStr).None? ==> producer.log == old(producer.log)
    ensures ParseIsoDate(dateStr).Some? ==>
              producer.log == old(producer.log) + DayDelivered(server, ParseIsoDate(dateStr).value, producer.refused)
  {
    var date := ParseIsoDate(dateStr);
    if date.None? {
      return;
    }
    var compact := FormatCompact(date.value);
    DayArchivesSpec(compact);
    var demand, supply := CollectTotals(server, DayArchives(compact));
    PublishDay(producer, demand, supply);
  }

  /** The two `if ...: publish_batch(...)` statements. */
  method PublishDay(producer: Publisher, demand: seq<Record>, supply: seq<Record>)
    modifies producer
    ensures producer.log == old(producer.log) + Delivered(NonEmptySteps(DateBatches(Totals(demand, supply))), producer.refused)
  {
    ghost var refused := producer.refused;
    ghost var log0 := producer.log;
    ghost var b1, b2 := Batch(ZonalDemandTopic, demand), Batch(FuelMixTopic, supply);
    ghost var e2 := Delivered(NonEmptySteps([b2]), refused);
    ghost var e1 := Delivered(NonEmptySteps([b1, b2]), refused);
    assert DateBatches(Totals(demand, supply)) == [b1, b2] == [b1] + [b2];
    assert [b2] == [b2] + [];
    DeliveredNonEmptyCons(b1, [b2], refused);
    DeliveredNonEmptyCons(b2, [], refused);
    assert e2 == if supply == [] || FuelMixTopic in refused then [] else [b2];
    if demand == [] && supply == [] {
      return;
    }
    if demand != [] {
      var ok := producer.PublishBatch(ZonalDemandTopic, demand);
      if !ok {
        return;
      }
      assert e1 == [b1] + e2;
      AppendAssoc(log0, [b1], e2);
    }
    assert producer.log + e2 == log0 + e1;
    if supply != [] {
      var ok := producer.PublishBatch(FuelMixTopic, supply);
    }
    assert producer.log == producer.log + [];
  }
}
