/** The RealtimeZonalEnergyPrices report: per transaction zone, the zonal, loss and congestion
    prices of each 5-minute interval of one delivery hour. The live report and its hourly
    archives are parsed alike. */
module ZonalPrices {
  import opened Wrappers
  import opened Text
  import opened Numbers
  import opened Calendar
  import opened Clock
  import opened Records
  import opened Merge

  datatype IntervalPrice = IntervalPrice(interval: Option<string>, zonalPrice: Option<string>,
                                         energyLossPrice: Option<string>, energyCongPrice: Option<string>)
  datatype TransactionZone = TransactionZone(zoneName: Option<string>, intervals: seq<IntervalPrice>)
  /** The DocBody's DELIVERYDATE and DELIVERYHOUR texts. */
  datatype PriceBody = PriceBody(deliveryDate: Option<string>, deliveryHour: Option<string>)
  /** A decoded price document: its DocBody, if any, and its TransactionZone elements. */
  datatype PriceDoc = PriceDoc(body: Option<PriceBody>, zones: seq<TransactionZone>)

  const HubSuffix := ":HUB"

  /** A zone name as published: every ":HUB" removed. */
  function ZoneLabel(name: string): string {
    Replace(name, HubSuffix, "")
  }

  /** "EAST:HUB" becomes "EAST": a name without a colon loses its hub suffix, and a name
      without ":HUB" is kept as it is. */
  lemma ZoneLabelOfHub(base: string)
    requires ':' !in base
    ensures ZoneLabel(base + HubSuffix) == base
    ensures ZoneLabel(base) == base
  {
    ReplaceDropsSuffix(base, HubSuffix);
    assert !Contains(base, HubSuffix) by {
      NotContainsWithoutHead(base, HubSuffix);
    }
  }

  /** The record of one IntervalPrice element of zone `zone`: none when Interval or ZonalPrice is
      missing, or when the timestamp or any present price cannot be built. */
  function IntervalRecord(base: Date, hour: int, zone: string, p: IntervalPrice): Option<Record> {
    if !Present(p.interval) || !Present(p.zonalPrice) then None
    else
      var ts := IntervalTime(base, hour, p.interval.value);
      var price := ParseNum(p.zonalPrice.value);
      var loss := ValueOrZero(p.energyLossPrice);
      var cong := ValueOrZero(p.energyCongPrice);
      if ts.Some? && price.Some? && loss.Some? && cong.Some? then
        Some(ZonalPrice(ts.value, zone, price.value, loss.value, cong.value))
      else None
  }

  /** An interval yields a record exactly when its number and price are present, the number is
      1..12 in a delivery hour 1..24, and every present price parses. The record starts at
      (hour - 1):(interval - 1) * 5 and carries the parsed prices, with 0.0 for a missing loss or
      congestion price. */
  lemma IntervalRecordSpec(base: Date, hour: int, zone: string, p: IntervalPrice)
    ensures var r := IntervalRecord(base, hour, zone, p);
      && (r.Some? <==> Present(p.interval) && Present(p.zonalPrice)
                       && ParseInt(p.interval.value).Some? && 1 <= ParseInt(p.interval.value).value <= 12
                       && 1 <= hour <= 24 && ParseNum(p.zonalPrice.value).Some?
                       && (Present(p.energyLossPrice) ==> ParseNum(p.energyLossPrice.value).Some?)
                       && (Present(p.energyCongPrice) ==> ParseNum(p.energyCongPrice.value).Some?))
      && (r.Some? ==>
            && r.value.ZonalPrice? && r.value.zone == zone
            && Some(r.value.timestamp) == IntervalStart(base, hour, ParseInt(p.interval.value).value)
            && Some(r.value.price) == ParseNum(p.zonalPrice.value)
            && (Present(p.energyLossPrice) ==> Some(r.value.energyLossPrice) == ParseNum(p.energyLossPrice.value))
            && (!Present(p.energyLossPrice) ==> r.value.energyLossPrice == 0.0)
            && (Present(p.energyCongPrice) ==> Some(r.value.congestionPrice) == ParseNum(p.energyCongPrice.value))
            && (!Present(p.energyCongPrice) ==> r.value.congestionPrice == 0.0))
  {
  }

  /** The records of one zone's intervals, in document order. */
  function IntervalRecords(base: Date, hour: int, zone: string, ps: seq<IntervalPrice>): seq<Record> {
    if ps == [] then [] else Keep(IntervalRecord(base, hour, zone, ps[0])) + IntervalRecords(base, hour, zone, ps[1..])
  }

  /** The records of the zones, in document order; a zone without a name yields none. */
  function ZoneRecords(base: Date, hour: int, zones: seq<TransactionZone>): seq<Record> {
    if zones == [] then []
    else
      var rest := ZoneRecords(base, hour, zones[1..]);
      if !Present(zones[0].zoneName) then rest
      else IntervalRecords(base, hour, ZoneLabel(zones[0].zoneName.value), zones[0].intervals) + rest
  }

  /** The records of a document: none without a DocBody or a usable DELIVERYDATE/DELIVERYHOUR. */
  function PricesOf(doc: PriceDoc): seq<Record> {
    match doc.body
    case None => []
    case Some(body) =>
      match DeliveryHeader(body.deliveryDate, body.deliveryHour)
      case None => []
      case Some((base, hour)) => ZoneRecords(base, hour, doc.zones)
  }

  /** The interval loop of one zone. */
  method AppendIntervals(base: Date, hour: int, zone: string, ps: seq<IntervalPrice>, records0: seq<Record>)
    returns (records: seq<Record>)
    ensures records == records0 + IntervalRecords(base, hour, zone, ps)
  {
    records := records0;
    assert ps[0..] == ps;
    for j := 0 to |ps|
      invariant records + IntervalRecords(base, hour, zone, ps[j..]) == records0 + IntervalRecords(base, hour, zone, ps)
    {
      assert ps[j..][1..] == ps[j + 1..];
      var r := IntervalRecord(base, hour, zone, ps[j]);
      if r.Some? {
        records := records + [r.value];
      }
    }
    assert records + [] == records;
  }

  /** The zone loop of `fetch_zonal_prices` and of the price-archive fetcher. */
  method AppendZones(base: Date, hour: int, zones: seq<TransactionZone>) returns (records: seq<Record>)
    ensures records == ZoneRecords(base, hour, zones)
  {
    records := [];
    assert zones[0..] == zones;
    for i := 0 to |zones|
      invariant records + ZoneRecords(base, hour, zones[i..]) == ZoneRecords(base, hour, zones)
    {
      assert zones[i..][1..] == zones[i + 1..];
      var zone := zones[i];
      if Present(zone.zoneName) {
        records := AppendIntervals(base, hour, ZoneLabel(zone.zoneName.value), zone.intervals, records);
      }
    }
    assert records + [] == records;
  }

  /** `fetch_zonal_prices` once the document is decoded. */
  method ExtractPrices(doc: PriceDoc) returns (records: seq<Record>)
    ensures records == PricesOf(doc)
  {
    records := [];
    if doc.body.None? {
      return;
    }
    var header := DeliveryHeader(doc.body.value.deliveryDate, doc.body.value.deliveryHour);
    if header.None? {
      return;
    }
    var (base, hour) := header.value;
    records := AppendZones(base, hour, doc.zones);
  }

  /** Every record of a zone is a price of that zone at a 5-minute mark of the delivery hour. */
  lemma {:induction false} IntervalRecordsShape(base: Date, hour: int, zone: string, ps: seq<IntervalPrice>)
    ensures var rs := IntervalRecords(base, hour, zone, ps);
      |rs| <= |ps| && forall r :: r in rs ==> r.ZonalPrice? && r.zone == zone && InDeliveryHour(r.timestamp, base, hour)
  {
    if ps != [] {
      IntervalRecordsShape(base, hour, zone, ps[1..]);
      IntervalRecordSpec(base, hour, zone, ps[0]);
    }
  }

  /** Every record of a document is a zonal price at a 5-minute mark of its delivery hour. */
  lemma {:induction false} ZoneRecordsShape(base: Date, hour: int, zones: seq<TransactionZone>)
    ensures forall r :: r in ZoneRecords(base, hour, zones) ==> r.ZonalPrice? && InDeliveryHour(r.timestamp, base, hour)
  {
    if zones != [] {
      ZoneRecordsShape(base, hour, zones[1..]);
      if Present(zones[0].zoneName) {
        IntervalRecordsShape(base, hour, ZoneLabel(zones[0].zoneName.value), zones[0].intervals);
      }
    }
  }

  /** The number of intervals that yield a record. */
  function CompleteIntervals(base: Date, hour: int, ps: seq<IntervalPrice>): nat {
    if ps == [] then 0
    else (if IntervalRecord(base, hour, "", ps[0]).Some? then 1 else 0) + CompleteIntervals(base, hour, ps[1..])
  }

  /** A zone has one record per complete interval, whatever its name. */
  lemma {:induction false} IntervalRecordsCount(base: Date, hour: int, zone: string, ps: seq<IntervalPrice>)
    ensures |IntervalRecords(base, hour, zone, ps)| == CompleteIntervals(base, hour, ps)
  {
    if ps != [] {
      IntervalRecordsCount(base, hour, zone, ps[1..]);
    }
  }
}
