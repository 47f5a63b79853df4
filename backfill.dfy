/** The startup backfill: the RealtimeTotals and RealtimeZonalEnergyPrices hourly archives of
    yesterday and of today so far, fetched, parsed, concatenated in fetch order and published. */
module Backfill {
  import opened Wrappers
  import opened Numbers
  import opened Calendar
  import opened Clock
  import opened Records
  import opened Retry
  import opened RealtimeTotals
  import opened ZonalPrices
  import opened Publishing

  /** The two archive families the backfill reads. */
  datatype Family = TotalsArchive | PriceArchive

  function Directory(f: Family): string {
    match f
    case TotalsArchive => "/RealtimeTotals/"
    case PriceArchive => "/RealtimeZonalEnergyPrices/"
  }

  function Prefix(f: Family): string {
    match f
    case TotalsArchive => "PUB_RealtimeTotals_"
    case PriceArchive => "PUB_RealtimeZonalEnergyPrices_"
  }

  const ArchiveExtension := ".xml"

  /** An archive's file name: the family prefix, the compact date, the hour on two digits. */
  function ArchiveName(f: Family, date: string, hour: int): string
    requires 0 <= hour < 100
  {
    Prefix(f) + date + Pad2(hour) + ArchiveExtension
  }

  function ArchiveUrl(f: Family, date: string, hour: int): string
    requires 0 <= hour < 100
  {
    IesoBaseUrl + Directory(f) + ArchiveName(f, date, hour)
  }

  /** A name spells its compact date and its padded hour at fixed places after the prefix. */
  lemma ArchiveNameParts(f: Family, d: Date, hour: int)
    requires ValidDate(d) && 0 <= hour < 100
    ensures var name := ArchiveName(f, FormatCompact(d), hour); var n := |Prefix(f)|;
      && |name| == n + 14
      && name[n..n + 8] == FormatCompact(d)
      && name[n + 8..n + 10] == Pad2(hour)
  {
    var n := |Prefix(f)|;
    var name := ArchiveName(f, FormatCompact(d), hour);
    assert name == Prefix(f) + FormatCompact(d) + Pad2(hour) + ArchiveExtension;
    assert name[n..n + 8] == FormatCompact(d);
    assert name[n + 8..n + 10] == Pad2(hour);
  }

  /** Distinct (date, hour) pairs name distinct archives, so no archive is fetched twice. */
  lemma ArchiveUrlInjective(f: Family, d1: Date, h1: int, d2: Date, h2: int)
    requires ValidDate(d1) && ValidDate(d2) && 0 <= h1 < 100 && 0 <= h2 < 100
    ensures ArchiveUrl(f, FormatCompact(d1), h1) == ArchiveUrl(f, FormatCompact(d2), h2) <==> d1 == d2 && h1 == h2
  {
    var head := IesoBaseUrl + Directory(f);
    var u1, u2 := ArchiveUrl(f, FormatCompact(d1), h1), ArchiveUrl(f, FormatCompact(d2), h2);
    if u1 == u2 {
      var n1, n2 := ArchiveName(f, FormatCompact(d1), h1), ArchiveName(f, FormatCompact(d2), h2);
      assert u1 == head + n1 && u2 == head + n2;
      assert n1 == u1[|head|..] && n2 == u2[|head|..];
      ArchiveNameParts(f, d1, h1);
      ArchiveNameParts(f, d2, h2);
      var n := |Prefix(f)|;
      assert n1[n..n + 8] == n2[n..n + 8] && n1[n + 8..n + 10] == n2[n + 8..n + 10];
      FormatCompactInjective(d1, d2);
      Pad2Injective(h1, h2);
    }
  }

  /** The (compact date, hour) pairs for hours `lo` to `hi - 1` of one day. */
  function DayHours(date: string, lo: int, hi: int): seq<(string, int)>
    requires lo <= hi
  {
    seq(hi - lo, k requires 0 <= k < hi - lo => (date, lo + k))
  }

  /** The hours of a list are ones an archive name can carry. */
  predicate ArchiveHours(list: seq<(string, int)>) {
    forall k :: 0 <= k < |list| ==> 1 <= list[k].1 <= 24
  }

  /** `now` as the backfill needs it: a calendar day that has a day before it, and an hour. */
  predicate ValidNow(now: DateTime) {
    ValidDate(now.date) && now.date != MinDate && 0 <= now.hour < 24
  }

  /** The archives to fetch: all 24 hours of yesterday, then today's hours up to the current
      IESO hour `now.hour + 1`, capped at 24. */
  function FetchList(now: DateTime): seq<(string, int)>
    requires ValidNow(now)
  {
    var currentHour := now.hour + 1;
    var hi := if currentHour + 1 < 25 then currentHour + 1 else 25;
    DayHours(FormatCompact(PrevDay(now.date)), 1, 25) + DayHours(FormatCompact(now.date), 1, hi)
  }

  /** The two `for hour in range(...)` loops that build `fetch_list`. */
  method BuildFetchList(now: DateTime) returns (list: seq<(string, int)>)
    requires ValidNow(now)
    ensures list == FetchList(now)
  {
    var today := FormatCompact(now.date);
    var yesterday := FormatCompact(PrevDay(now.date));
    var currentHour := now.hour + 1;
    list := [];
    for hour := 1 to 25
      invariant list == DayHours(yesterday, 1, hour)
    {
      list := list + [(yesterday, hour)];
    }
    var hi := if currentHour + 1 < 25 then currentHour + 1 else 25;
    ghost var first := list;
    for hour := 1 to hi
      invariant list == first + DayHours(today, 1, hour)
    {
      list := list + [(today, hour)];
    }
  }

  /** The list has 25 + now.hour entries: hours 1..24 of yesterday in order, then hours
      1..now.hour + 1 of today in order; yesterday comes before today. */
  lemma FetchListSpec(now: DateTime)
    requires ValidNow(now)
    ensures var list := FetchList(now);
      && |list| == 25 + now.hour
      && ArchiveHours(list)
      && (forall k :: 0 <= k < 24 ==> list[k] == (FormatCompact(PrevDay(now.date)), k + 1))
      && (forall k :: 24 <= k < |list| ==> list[k] == (FormatCompact(now.date), k - 23) && list[k].1 <= now.hour + 1)
      && Before(PrevDay(now.date), now.date)
  {
  }

  /** No archive appears twice in the list. */
  lemma FetchListDistinct(now: DateTime, f: Family)
    requires ValidNow(now)
    ensures var list := FetchList(now);
      forall i, j :: 0 <= i < j < |list| ==> ArchiveUrl(f, list[i].0, list[i].1) != ArchiveUrl(f, list[j].0, list[j].1)
  {
    var list := FetchList(now);
    FetchListSpec(now);
    var yesterday, today := PrevDay(now.date), now.date;
    forall i, j | 0 <= i < j < |list|
      ensures ArchiveUrl(f, list[i].0, list[i].1) != ArchiveUrl(f, list[j].0, list[j].1)
    {
      var di := if i < 24 then yesterday else today;
      var dj := if j < 24 then yesterday else today;
      assert list[i].0 == FormatCompact(di) && list[j].0 == FormatCompact(dj);
      ArchiveUrlInjective(f, di, list[i].1, dj, list[j].1);
    }
  }

  /** What `fetch_hourly_archive` returns for the outcome of its one request: nothing for a 404
      or any failure before parsing, else the document's records up to its first bad interval. */
  function TotalsArchiveOf(outcome: Attempt<TotalsDoc>): Totals {
    if outcome.Got? then TotalsOf(outcome.doc, true) else NoTotals
  }

  /** What `fetch_price_archive` returns: nothing for a 404 or any failure before parsing, else
      the records of the document, parsed as the live report is. */
  function PriceArchiveOf(outcome: Attempt<PriceDoc>): seq<Record> {
    if outcome.Got? then PricesOf(outcome.doc) else []
  }

  /** The archives of `list`, concatenated in list order. `server(url)` is the outcome of
      requesting `url`. */
  function ArchivesTotals(server: string -> Attempt<TotalsDoc>, list: seq<(string, int)>): Totals
    requires ArchiveHours(list)
  {
    if list == [] then NoTotals
    else Join(TotalsArchiveOf(server(ArchiveUrl(TotalsArchive, list[0].0, list[0].1))), ArchivesTotals(server, list[1..]))
  }

  function ArchivesPrices(server: string -> Attempt<PriceDoc>, list: seq<(string, int)>): seq<Record>
    requires ArchiveHours(list)
  {
    if list == [] then []
    else PriceArchiveOf(server(ArchiveUrl(PriceArchive, list[0].0, list[0].1))) + ArchivesPrices(server, list[1..])
  }

  /** `fetch_hourly_archive(client, date, hour)`. */
  method FetchHourlyArchive(server: string -> Attempt<TotalsDoc>, date: string, hour: int)
    returns (demand: seq<Record>, supply: seq<Record>)
    requires 1 <= hour <= 24
    ensures Totals(demand, supply) == TotalsArchiveOf(server(ArchiveUrl(TotalsArchive, date, hour)))
  {
    var outcome := server(ArchiveUrl(TotalsArchive, date, hour));
    if !outcome.Got? {
      return [], [];
    }
    demand, supply := ExtractTotals(outcome.doc, true);
  }

  /** `fetch_price_archive(client, date, hour)`. */
  method FetchPriceArchive(server: string -> Attempt<PriceDoc>, date: string, hour: int) returns (records: seq<Record>)
    requires 1 <= hour <= 24
    ensures records == PriceArchiveOf(server(ArchiveUrl(PriceArchive, date, hour)))
  {
    var outcome := server(ArchiveUrl(PriceArchive, date, hour));
    if !outcome.Got? {
      return [];
    }
    records := ExtractPrices(outcome.doc);
  }

  /** The demand/supply results loop: each archive's lists extended in fetch order. */
  method CollectTotals(server: string -> Attempt<TotalsDoc>, list: seq<(string, int)>)
    returns (demand: seq<Record>, supply: seq<Record>)
    requires ArchiveHours(list)
    ensures Totals(demand, supply) == ArchivesTotals(server, list)
  {
    demand, supply := [], [];
    assert list[0..] == list;
    for i := 0 to |list|
      invariant Join(Totals(demand, supply), ArchivesTotals(server, list[i..])) == ArchivesTotals(server, list)
    {
      assert list[i..][1..] == list[i + 1..];
      var d, s := FetchHourlyArchive(server, list[i].0, list[i].1);
      JoinAssoc(Totals(demand, supply), Totals(d, s), ArchivesTotals(server, list[i + 1..]));
      demand, supply := demand + d, supply + s;
    }
    JoinAssoc(Totals(demand, supply), NoTotals, NoTotals);
  }

  /** The price results loop. */
  method CollectPrices(server: string -> Attempt<PriceDoc>, list: seq<(string, int)>) returns (prices: seq<Record>)
    requires ArchiveHours(list)
    ensures prices == ArchivesPrices(server, list)
  {
    prices := [];
    assert list[0..] == list;
    for i := 0 to |list|
      invariant prices + ArchivesPrices(server, list[i..]) == ArchivesPrices(server, list)
    {
      assert list[i..][1..] == list[i + 1..];
      var r := FetchPriceArchive(server, list[i].0, list[i].1);
      AppendAssoc(prices, r, ArchivesPrices(server, list[i + 1..]));
      prices := prices + r;
    }
    assert prices + [] == prices;
  }

  /** The publish calls of the backfill: the non-empty lists among demand, supply and prices,
      in that order. */
  function StartupBatches(totals: Totals, prices: seq<Record>): seq<Batch> {
    [Batch(ZonalDemandTopic, totals.demand), Batch(FuelMixTopic, totals.supply), Batch(ZonalPricesTopic, prices)]
  }

  /** The fetch half of `backfill_on_startup`: the list, then both archive families. */
  method FetchArchives(now: DateTime, totalsServer: string -> Attempt<TotalsDoc>, priceServer: string -> Attempt<PriceDoc>)
    returns (demand: seq<Record>, supply: seq<Record>, prices: seq<Record>)
    requires ValidNow(now)
    ensures ArchiveHours(FetchList(now))
    ensures Totals(demand, supply) == ArchivesTotals(totalsServer, FetchList(now))
    ensures prices == ArchivesPrices(priceServer, FetchList(now))
  {
    var list := BuildFetchList(now);
    FetchListSpec(now);
    demand, supply := CollectTotals(totalsServer, list);
    prices := CollectPrices(priceServer, list);
  }

  /** `backfill_on_startup`. A publish that raises ends the backfill (the caller logs it and
      goes on), so later lists are not published. */
  method BackfillOnStartup(now: DateTime, totalsServer: string -> Attempt<TotalsDoc>,
                           priceServer: string -> Attempt<PriceDoc>, producer: Publisher)
    requires ValidNow(now)
    modifies producer
    ensures var list := FetchList(now);
      producer.log == old(producer.log)
        + Delivered(NonEmptySteps(StartupBatches(ArchivesTotals(totalsServer, list), ArchivesPrices(priceServer, list))), producer.refused)
  {
    var demand, supply, prices := FetchArchives(now, totalsServer, priceServer);
    PublishBackfill(producer, demand, supply, prices);
  }

  /** The publish half of `backfill_on_startup`. */
  method PublishBackfill(producer: Publisher, demand: seq<Record>, supply: seq<Record>, prices: seq<Record>)
    modifies producer
    ensures producer.log == old(producer.log) + Delivered(NonEmptySteps(StartupBatches(Totals(demand, supply), prices)), producer.refused)
  {
    ghost var refused := producer.refused;
    ghost var log0 := producer.log;
    ghost var b1, b2, b3 := Batch(ZonalDemandTopic, demand), Batch(FuelMixTopic, supply), Batch(ZonalPricesTopic, prices);
    // What is still to be delivered after each publish call.
    ghost var e3 := Delivered(NonEmptySteps([b3]), refused);
    ghost var e2 := Delivered(NonEmptySteps([b2, b3]), refused);
    ghost var e1 := Delivered(NonEmptySteps([b1, b2, b3]), refused);
    assert StartupBatches(Totals(demand, supply), prices) == [b1, b2, b3];
    assert [b1, b2, b3] == [b1] + [b2, b3] && [b2, b3] == [b2] + [b3] && [b3] == [b3] + [];
    DeliveredNonEmptyCons(b1, [b2, b3], refused);
    DeliveredNonEmptyCons(b2, [b3], refused);
    DeliveredNonEmptyCons(b3, [], refused);
    assert e3 == if prices == [] || ZonalPricesTopic in refused then [] else [b3];
    if demand == [] && supply == [] && prices == [] {
      return;
    }
    if demand != [] {
      var ok := producer.PublishBatch(ZonalDemandTopic, demand);
      if !ok {
        return;
      }
      assert e1 == [b1] + e2;
      AppendAssoc(log0, [b1], e2);
    }
    assert producer.log + e2 == log0 + e1;
    ghost var log2 := producer.log;
    if supply != [] {
      var ok := producer.PublishBatch(FuelMixTopic, supply);
      if !ok {
        assert e2 == [];
        return;
      }
      assert e2 == [b2] + e3;
      AppendAssoc(log2, [b2], e3);
    }
    assert producer.log + e3 == log0 + e1;
    if prices != [] {
      var ok := producer.PublishBatch(ZonalPricesTopic, prices);
    }
    assert producer.log == producer.log + [];
  }

  /** The collected lists are the yesterday archives' records followed by today's. */
  lemma {:induction false} ArchivesTotalsAppend(server: string -> Attempt<TotalsDoc>, a: seq<(string, int)>, b: seq<(string, int)>)
    requires ArchiveHours(a) && ArchiveHours(b)
    ensures ArchiveHours(a + b)
    ensures ArchivesTotals(server, a + b) == Join(ArchivesTotals(server, a), ArchivesTotals(server, b))
  {
    if a == [] {
      assert a + b == b;
    } else {
      assert (a + b)[1..] == a[1..] + b;
      ArchivesTotalsAppend(server, a[1..], b);
      JoinAssoc(TotalsArchiveOf(server(ArchiveUrl(TotalsArchive, a[0].0, a[0].1))), ArchivesTotals(server, a[1..]), ArchivesTotals(server, b));
    }
  }

  lemma {:induction false} ArchivesPricesAppend(server: string -> Attempt<PriceDoc>, a: seq<(string, int)>, b: seq<(string, int)>)
    requires ArchiveHours(a) && ArchiveHours(b)
    ensures ArchiveHours(a + b)
    ensures ArchivesPrices(server, a + b) == ArchivesPrices(server, a) + ArchivesPrices(server, b)
  {
    if a == [] {
      assert a + b == b;
    } else {
      assert (a + b)[1..] == a[1..] + b;
      ArchivesPricesAppend(server, a[1..], b);
      AppendAssoc(PriceArchiveOf(server(ArchiveUrl(PriceArchive, a[0].0, a[0].1))), ArchivesPrices(server, a[1..]), ArchivesPrices(server, b));
    }
  }

  /** Every backfilled demand record is Ontario demand and every supply record the realtime
      total, each at a five-minute mark of some archive's delivery hour. */
  lemma {:induction false} ArchivesTotalsShape(server: string -> Attempt<TotalsDoc>, list: seq<(string, int)>)
    requires ArchiveHours(list)
    ensures var t := ArchivesTotals(server, list);
      && (forall r :: r in t.demand ==> r.Demand? && r.zone == OntarioZone && r.timestamp.minute % 5 == 0 && 0 <= r.timestamp.hour < 24)
      && (forall r :: r in t.supply ==> r.Supply? && r.fuelType == RealtimeTotalFuel && r.timestamp.minute % 5 == 0 && 0 <= r.timestamp.hour < 24)
  {
    if list != [] {
      ArchivesTotalsShape(server, list[1..]);
    }
  }

  /** Every backfilled price record is a zonal price at a five-minute mark of its hour. */
  lemma {:induction false} ArchivesPricesShape(server: string -> Attempt<PriceDoc>, list: seq<(string, int)>)
    requires ArchiveHours(list)
    ensures forall r :: r in ArchivesPrices(server, list) ==> r.ZonalPrice? && r.timestamp.minute % 5 == 0 && 0 <= r.timestamp.hour < 24
  {
    if list != [] {
      ArchivesPricesShape(server, list[1..]);
      var outcome := server(ArchiveUrl(PriceArchive, list[0].0, list[0].1));
      if outcome.Got? && outcome.doc.body.Some? {
        var header := DeliveryHeader(outcome.doc.body.value.deliveryDate, outcome.doc.body.value.deliveryHour);
        if header.Some? {
          ZoneRecordsShape(header.value.0, header.value.1, outcome.doc.zones);
        }
      }
    }
  }
}
