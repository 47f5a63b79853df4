/** The RealtimeTotals report: Ontario demand and total energy per 5-minute interval of one
    delivery hour. The live report and its hourly archives share the format; they differ only in
    what a bad interval number does. */
module RealtimeTotals {
  import opened Wrappers
  import opened Text
  import opened Numbers
  import opened Calendar
  import opened Clock
  import opened Records

  /** An `MQ` element: its MarketQuantity and EnergyMW texts. */
  datatype MarketQuantity = MarketQuantity(name: Option<string>, energyMw: Option<string>)
  datatype IntervalEnergy = IntervalEnergy(interval: Option<string>, quantities: seq<MarketQuantity>)
  datatype TotalsBody = TotalsBody(deliveryDate: Option<string>, deliveryHour: Option<string>, intervals: seq<IntervalEnergy>)
  /** A decoded RealtimeTotals document: its DocBody, if it has one. */
  datatype TotalsDoc = TotalsDoc(body: Option<TotalsBody>)

  /** The demand and supply lists a parse returns. */
  datatype Totals = Totals(demand: seq<Record>, supply: seq<Record>)

  const NoTotals := Totals([], [])
  const DemandQuantity := "ONTARIO DEMAND"
  const SupplyQuantity := "Total Energy"

  function Join(a: Totals, b: Totals): Totals {
    Totals(a.demand + b.demand, a.supply + b.supply)
  }

  /** A demand record of this report at `ts`. */
  predicate DemandAt(r: Record, ts: DateTime) {
    r.Demand? && r.zone == OntarioZone && r.timestamp == ts
  }

  /** A supply record of this report at `ts`. */
  predicate SupplyAt(r: Record, ts: DateTime) {
    r.Supply? && r.fuelType == RealtimeTotalFuel && r.timestamp == ts
  }

  /** What one MQ element yields at `ts`: a demand record for "ONTARIO DEMAND", a supply record
      for "Total Energy", and nothing for other quantities or a missing or unparseable EnergyMW. */
  function Route(ts: DateTime, q: MarketQuantity): (t: Totals)
    ensures var parsed := Present(q.energyMw) && ParseNum(q.energyMw.value).Some?;
      && (t.demand != [] <==> parsed && q.name == Some(DemandQuantity))
      && (t.supply != [] <==> parsed && q.name == Some(SupplyQuantity))
      && (parsed && q.name == Some(DemandQuantity) ==> t.demand == [Demand(ts, OntarioZone, ParseNum(q.energyMw.value).value)])
      && (parsed && q.name == Some(SupplyQuantity) ==> t.supply == [Supply(ts, RealtimeTotalFuel, ParseNum(q.energyMw.value).value)])
    ensures |t.demand| + |t.supply| <= 1
  {
    if !Present(q.energyMw) then NoTotals
    else
      match ParseNum(q.energyMw.value)
      case None => NoTotals
      case Some(mw) =>
        if q.name == Some(DemandQuantity) then Totals([Demand(ts, OntarioZone, mw)], [])
        else if q.name == Some(SupplyQuantity) then Totals([], [Supply(ts, RealtimeTotalFuel, mw)])
        else NoTotals
  }

  /** The records of one interval's MQ elements, in document order. */
  function QuantityRecords(ts: DateTime, qs: seq<MarketQuantity>): (t: Totals)
    ensures forall r :: r in t.demand ==> DemandAt(r, ts)
    ensures forall r :: r in t.supply ==> SupplyAt(r, ts)
    ensures |t.demand| + |t.supply| <= |qs|
  {
    if qs == [] then NoTotals else Join(Route(ts, qs[0]), QuantityRecords(ts, qs[1..]))
  }

  /** The records of the intervals `ivs`. An interval without a number is skipped; one whose
      timestamp cannot be built is skipped, or, when `abortOnBadInterval`, ends the parse with
      the records collected so far. */
  function IntervalRecords(base: Date, hour: int, ivs: seq<IntervalEnergy>, abortOnBadInterval: bool): (t: Totals)
    ensures forall r :: r in t.demand ==> r.Demand? && r.zone == OntarioZone && InDeliveryHour(r.timestamp, base, hour)
    ensures forall r :: r in t.supply ==> r.Supply? && r.fuelType == RealtimeTotalFuel && InDeliveryHour(r.timestamp, base, hour)
  {
    if ivs == [] then NoTotals
    else
      var rest := IntervalRecords(base, hour, ivs[1..], abortOnBadInterval);
      if !Present(ivs[0].interval) then rest
      else
        match IntervalTime(base, hour, ivs[0].interval.value)
        case None => if abortOnBadInterval then NoTotals else rest
        case Some(ts) => Join(QuantityRecords(ts, ivs[0].quantities), rest)
  }

  /** The demand and supply records of a document; none without a DocBody or a usable header. */
  function TotalsOf(doc: TotalsDoc, abortOnBadInterval: bool): Totals {
    match doc.body
    case None => NoTotals
    case Some(body) =>
      match DeliveryHeader(body.deliveryDate, body.deliveryHour)
      case None => NoTotals
      case Some((base, hour)) => IntervalRecords(base, hour, body.intervals, abortOnBadInterval)
  }

  lemma JoinAssoc(a: Totals, b: Totals, c: Totals)
    ensures Join(Join(a, b), c) == Join(a, Join(b, c))
    ensures Join(a, NoTotals) == a
  {
    assert a.demand + [] == a.demand && a.supply + [] == a.supply;
  }

  /** The MQ loop of one interval: appends what each MQ element yields at `ts`. */
  method AppendQuantities(ts: DateTime, qs: seq<MarketQuantity>, demand0: seq<Record>, supply0: seq<Record>)
    returns (demand: seq<Record>, supply: seq<Record>)
    ensures Totals(demand, supply) == Join(Totals(demand0, supply0), QuantityRecords(ts, qs))
  {
    demand, supply := demand0, supply0;
    for j := 0 to |qs|
      invariant Join(Totals(demand, supply), QuantityRecords(ts, qs[j..]))
                == Join(Totals(demand0, supply0), QuantityRecords(ts, qs))
    {
      assert qs[j..][1..] == qs[j + 1..];
      var q := qs[j];
      JoinAssoc(Totals(demand, supply), Route(ts, q), QuantityRecords(ts, qs[j + 1..]));
      if !Present(q.energyMw) {
        continue;
      }
      var mw := ParseNum(q.energyMw.value);
      if mw.None? {
        continue;
      }
      if q.name == Some(DemandQuantity) {
        demand := demand + [Demand(ts, OntarioZone, mw.value)];
      } else if q.name == Some(SupplyQuantity) {
        supply := supply + [Supply(ts, RealtimeTotalFuel, mw.value)];
      }
    }
    JoinAssoc(Totals(demand, supply), NoTotals, NoTotals);
  }

  /** Parses a decoded document: the interval and MQ loops of `fetch_realtime_totals` (with
      `abortOnBadInterval` false) and of the archive fetchers (with it true). */
  method ExtractTotals(doc: TotalsDoc, abortOnBadInterval: bool) returns (demand: seq<Record>, supply: seq<Record>)
    ensures Totals(demand, supply) == TotalsOf(doc, abortOnBadInterval)
  {
    demand, supply := [], [];
    if doc.body.None? {
      return;
    }
    var body := doc.body.value;
    if !Present(body.deliveryDate) || !Present(body.deliveryHour) {
      return;
    }
    var date := ParseIsoDate(body.deliveryDate.value);
    var hour := ParseInt(body.deliveryHour.value);
    if date.None? || hour.None? {
      return;
    }
    var base, h := date.value, hour.value;
    var ivs := body.intervals;
    assert Join(NoTotals, IntervalRecords(base, h, ivs, abortOnBadInterval)) == TotalsOf(doc, abortOnBadInterval);
    for i := 0 to |ivs|
      invariant Join(Totals(demand, supply), IntervalRecords(base, h, ivs[i..], abortOnBadInterval))
                == TotalsOf(doc, abortOnBadInterval)
    {
      assert ivs[i..][1..] == ivs[i + 1..];
      var iv := ivs[i];
      var rest := IntervalRecords(base, h, ivs[i + 1..], abortOnBadInterval);
      if !Present(iv.interval) {
        continue;
      }
      var ts := IntervalTime(base, h, iv.interval.value);
      if ts.None? {
        if abortOnBadInterval {
          JoinAssoc(Totals(demand, supply), NoTotals, NoTotals);
          return;
        }
        continue;
      }
      JoinAssoc(Totals(demand, supply), QuantityRecords(ts.value, iv.quantities), rest);
      demand, supply := AppendQuantities(ts.value, iv.quantities, demand, supply);
    }
    JoinAssoc(Totals(demand, supply), NoTotals, NoTotals);
  }

  /** An archive parse, which stops at the first bad interval, yields a prefix of what the live
      parse of the same intervals yields, and the same lists when no interval is bad. */
  lemma {:induction false} ArchiveIsPrefixOfLive(base: Date, hour: int, ivs: seq<IntervalEnergy>)
    ensures var archive := IntervalRecords(base, hour, ivs, true);
            var live := IntervalRecords(base, hour, ivs, false);
      && archive.demand <= live.demand && archive.supply <= live.supply
      && ((forall k :: 0 <= k < |ivs| && Present(ivs[k].interval) ==> IntervalTime(base, hour, ivs[k].interval.value).Some?)
          ==> archive == live)
  {
    if ivs != [] {
      ArchiveIsPrefixOfLive(base, hour, ivs[1..]);
      var good := forall k :: 0 <= k < |ivs| && Present(ivs[k].interval) ==> IntervalTime(base, hour, ivs[k].interval.value).Some?;
      if good {
        assert forall k :: 0 <= k < |ivs[1..]| && Present(ivs[1..][k].interval) ==> IntervalTime(base, hour, ivs[1..][k].interval.value).Some? by {
          forall k | 0 <= k < |ivs[1..]| && Present(ivs[1..][k].interval)
            ensures IntervalTime(base, hour, ivs[1..][k].interval.value).Some?
          {
            assert ivs[1..][k] == ivs[k + 1];
          }
        }
      }
    }
  }

  /** An hour outside 1..24 yields no record from any interval. */
  lemma {:induction false} BadHourYieldsNothing(base: Date, hour: int, ivs: seq<IntervalEnergy>, abortOnBadInterval: bool)
    requires !(1 <= hour <= 24)
    ensures IntervalRecords(base, hour, ivs, abortOnBadInterval) == NoTotals
  {
    if ivs != [] {
      BadHourYieldsNothing(base, hour, ivs[1..], abortOnBadInterval);
    }
  }
}
