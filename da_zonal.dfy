/** The DAHourlyZonal report: the day-ahead price of each hour of the next delivery day for each
    virtual zone, fetched with retries. */
module DayAheadZonal {
  import opened Wrappers
  import opened Text
  import opened Clock
  import opened Records
  import opened Retry
  import opened ZonalPrices
  import opened DayAheadOzp

  /** A DeliveryHour element: its Hour and LMP texts. */
  datatype HourLmp = HourLmp(hour: Option<string>, lmp: Option<string>)
  /** A Components element: its PriceComponent text and its DeliveryHour elements. */
  datatype PriceComponents = PriceComponents(priceComponent: Option<string>, hours: seq<HourLmp>)
  /** A TransactionZone element: its ZoneName text and its Components elements. */
  datatype VirtualZone = VirtualZone(zoneName: Option<string>, components: seq<PriceComponents>)
  /** A decoded DAHourlyZonal document. */
  datatype DaZonalDoc = DaZonalDoc(body: Option<DeliveryBody>, zones: seq<VirtualZone>)

  const ZonalPriceComponent := "Zonal Price"

  function HourRecords(now: DateTime, deliveryDate: string, zone: string, hs: seq<HourLmp>): seq<Record> {
    if hs == [] then []
    else Keep(HourPrice(now, deliveryDate, zone, hs[0].hour, hs[0].lmp)) + HourRecords(now, deliveryDate, zone, hs[1..])
  }

  /** The records of a zone's components: only a "Zonal Price" component contributes. */
  function ComponentsRecords(now: DateTime, deliveryDate: string, zone: string, cs: seq<PriceComponents>): seq<Record> {
    if cs == [] then []
    else
      var rest := ComponentsRecords(now, deliveryDate, zone, cs[1..]);
      if cs[0].priceComponent == Some(ZonalPriceComponent) then HourRecords(now, deliveryDate, zone, cs[0].hours) + rest
      else rest
  }

  /** The records of the zones: a zone without a name is skipped, and ":HUB" leaves the name. */
  function ZonesRecords(now: DateTime, deliveryDate: string, zs: seq<VirtualZone>): seq<Record> {
    if zs == [] then []
    else
      var rest := ZonesRecords(now, deliveryDate, zs[1..]);
      if !Present(zs[0].zoneName) then rest
      else ComponentsRecords(now, deliveryDate, ZoneLabel(zs[0].zoneName.value), zs[0].components) + rest
  }

  /** The records of a fetched document: none without a DocBody or a DeliveryDate. */
  function DaZonalOf(now: DateTime, doc: DaZonalDoc): seq<Record> {
    if doc.body.None? || !Present(doc.body.value.deliveryDate) then []
    else ZonesRecords(now, doc.body.value.deliveryDate.value, doc.zones)
  }

  /** What `fetch_da_hourly_zonal` returns, where `server(k)` is the outcome of the k-th request. */
  ghost function FetchedDaZonal(now: DateTime, server: nat -> Attempt<DaZonalDoc>): seq<Record> {
    var run := RunFrom(server, false, 0);
    if run.root.None? then [] else DaZonalOf(now, run.root.value)
  }

  /** The DeliveryHour loop of one component. */
  method AppendHours(now: DateTime, deliveryDate: string, zone: string, hs: seq<HourLmp>, records0: seq<Record>)
    returns (records: seq<Record>)
    ensures records == records0 + HourRecords(now, deliveryDate, zone, hs)
  {
    records := records0;
    assert hs[0..] == hs;
    for i := 0 to |hs|
      invariant records + HourRecords(now, deliveryDate, zone, hs[i..]) == records0 + HourRecords(now, deliveryDate, zone, hs)
    {
      assert hs[i..][1..] == hs[i + 1..];
      var r := HourPrice(now, deliveryDate, zone, hs[i].hour, hs[i].lmp);
      if r.Some? {
        records := records + [r.value];
      }
    }
    assert records + [] == records;
  }

  /** The Components loop of one zone. */
  method AppendComponents(now: DateTime, deliveryDate: string, zone: string, cs: seq<PriceComponents>, records0: seq<Record>)
    returns (records: seq<Record>)
    ensures records == records0 + ComponentsRecords(now, deliveryDate, zone, cs)
  {
    records := records0;
    assert cs[0..] == cs;
    for i := 0 to |cs|
      invariant records + ComponentsRecords(now, deliveryDate, zone, cs[i..]) == records0 + ComponentsRecords(now, deliveryDate, zone, cs)
    {
      assert cs[i..][1..] == cs[i + 1..];
      if cs[i].priceComponent == Some(ZonalPriceComponent) {
        ghost var before := records;
        records := AppendHours(now, deliveryDate, zone, cs[i].hours, records);
        AppendAssoc(before, HourRecords(now, deliveryDate, zone, cs[i].hours), ComponentsRecords(now, deliveryDate, zone, cs[i + 1..]));
      }
    }
    assert records + [] == records;
  }

  /** The TransactionZone loop. */
  method AppendZones(now: DateTime, deliveryDate: string, zs: seq<VirtualZone>) returns (records: seq<Record>)
    ensures records == ZonesRecords(now, deliveryDate, zs)
  {
    records := [];
    assert zs[0..] == zs;
    for i := 0 to |zs|
      invariant records + ZonesRecords(now, deliveryDate, zs[i..]) == ZonesRecords(now, deliveryDate, zs)
    {
      assert zs[i..][1..] == zs[i + 1..];
      if Present(zs[i].zoneName) {
        var zone := ZoneLabel(zs[i].zoneName.value);
        ghost var before := records;
        records := AppendComponents(now, deliveryDate, zone, zs[i].components, records);
        AppendAssoc(before, ComponentsRecords(now, deliveryDate, zone, zs[i].components), ZonesRecords(now, deliveryDate, zs[i + 1..]));
      }
    }
    assert records + [] == records;
  }

  /** `fetch_da_hourly_zonal`: the retry loop (for-else), then the parse. */
  method FetchDaHourlyZonal(now: DateTime, server: nat -> Attempt<DaZonalDoc>) returns (records: seq<Record>)
    ensures records == FetchedDaZonal(now, server)
  {
    var root, calls, sleeps := FetchWithRetry(server, false);
    if root.None? {
      return [];
    }
    var doc := root.value;
    if doc.body.None? || !Present(doc.body.value.deliveryDate) {
      return [];
    }
    records := AppendZones(now, doc.body.value.deliveryDate.value, doc.zones);
  }

  /** A record comes from a component's hours exactly when one of its DeliveryHour elements
      yields it. */
  lemma {:induction false} HourRecordsMembers(now: DateTime, deliveryDate: string, zone: string, hs: seq<HourLmp>, r: Record)
    ensures r in HourRecords(now, deliveryDate, zone, hs)
            <==> exists j :: 0 <= j < |hs| && HourPrice(now, deliveryDate, zone, hs[j].hour, hs[j].lmp) == Some(r)
  {
    if hs != [] {
      HourRecordsMembers(now, deliveryDate, zone, hs[1..], r);
      if r in HourRecords(now, deliveryDate, zone, hs) && HourPrice(now, deliveryDate, zone, hs[0].hour, hs[0].lmp) != Some(r) {
        var j :| 0 <= j < |hs[1..]| && HourPrice(now, deliveryDate, zone, hs[1..][j].hour, hs[1..][j].lmp) == Some(r);
        assert hs[j + 1] == hs[1..][j];
      }
      if j :| 0 <= j < |hs| && HourPrice(now, deliveryDate, zone, hs[j].hour, hs[j].lmp) == Some(r) {
        if j > 0 {
          assert hs[1..][j - 1] == hs[j];
        }
      }
    }
  }

  /** A record comes from a zone's components exactly when a "Zonal Price" component's hours
      yield it; the other components contribute nothing. */
  lemma {:induction false} ComponentsRecordsMembers(now: DateTime, deliveryDate: string, zone: string, cs: seq<PriceComponents>, r: Record)
    ensures r in ComponentsRecords(now, deliveryDate, zone, cs)
            <==> exists i :: 0 <= i < |cs| && cs[i].priceComponent == Some(ZonalPriceComponent)
                             && r in HourRecords(now, deliveryDate, zone, cs[i].hours)
  {
    if cs != [] {
      ComponentsRecordsMembers(now, deliveryDate, zone, cs[1..], r);
      var here := cs[0].priceComponent == Some(ZonalPriceComponent) && r in HourRecords(now, deliveryDate, zone, cs[0].hours);
      if r in ComponentsRecords(now, deliveryDate, zone, cs) && !here {
        var i :| 0 <= i < |cs[1..]| && cs[1..][i].priceComponent == Some(ZonalPriceComponent)
                 && r in HourRecords(now, deliveryDate, zone, cs[1..][i].hours);
        assert cs[i + 1] == cs[1..][i];
      }
      if i :| 0 <= i < |cs| && cs[i].priceComponent == Some(ZonalPriceComponent)
              && r in HourRecords(now, deliveryDate, zone, cs[i].hours) {
        if i > 0 {
          assert cs[1..][i - 1] == cs[i];
        }
      }
    }
  }

  /** A record comes from the zones exactly when a named zone's components yield it under the
      zone's name stripped of ":HUB". */
  lemma {:induction false} ZonesRecordsMembers(now: DateTime, deliveryDate: string, zs: seq<VirtualZone>, r: Record)
    ensures r in ZonesRecords(now, deliveryDate, zs)
            <==> exists k :: 0 <= k < |zs| && Present(zs[k].zoneName)
                             && r in ComponentsRecords(now, deliveryDate, ZoneLabel(zs[k].zoneName.value), zs[k].components)
  {
    if zs != [] {
      ZonesRecordsMembers(now, deliveryDate, zs[1..], r);
      var here := Present(zs[0].zoneName)
                  && r in ComponentsRecords(now, deliveryDate, ZoneLabel(zs[0].zoneName.value), zs[0].components);
      if r in ZonesRecords(now, deliveryDate, zs) && !here {
        var k :| 0 <= k < |zs[1..]| && Present(zs[1..][k].zoneName)
                 && r in ComponentsRecords(now, deliveryDate, ZoneLabel(zs[1..][k].zoneName.value), zs[1..][k].components);
        assert zs[k + 1] == zs[1..][k];
      }
      if k :| 0 <= k < |zs| && Present(zs[k].zoneName)
              && r in ComponentsRecords(now, deliveryDate, ZoneLabel(zs[k].zoneName.value), zs[k].components) {
        if k > 0 {
          assert zs[1..][k - 1] == zs[k];
        }
      }
    }
  }

  /** Every record is a price of a named zone's "Zonal Price" component, stamped with the fetch
      time and carrying the DocBody's date. */
  lemma DaZonalRecordsShape(now: DateTime, doc: DaZonalDoc, r: Record)
    requires r in DaZonalOf(now, doc)
    ensures r.DayAheadPrice? && r.timestamp == now
    ensures doc.body.Some? && Present(doc.body.value.deliveryDate) && r.deliveryDate == doc.body.value.deliveryDate.value
    ensures exists k :: 0 <= k < |doc.zones| && Present(doc.zones[k].zoneName) && r.zone == ZoneLabel(doc.zones[k].zoneName.value)
  {
    var date := doc.body.value.deliveryDate.value;
    ZonesRecordsMembers(now, date, doc.zones, r);
    var k :| 0 <= k < |doc.zones| && Present(doc.zones[k].zoneName)
             && r in ComponentsRecords(now, date, ZoneLabel(doc.zones[k].zoneName.value), doc.zones[k].components);
    var zone := ZoneLabel(doc.zones[k].zoneName.value);
    var cs := doc.zones[k].components;
    ComponentsRecordsMembers(now, date, zone, cs, r);
    var i :| 0 <= i < |cs| && cs[i].priceComponent == Some(ZonalPriceComponent) && r in HourRecords(now, date, zone, cs[i].hours);
    HourRecordsMembers(now, date, zone, cs[i].hours, r);
    var j :| 0 <= j < |cs[i].hours| && HourPrice(now, date, zone, cs[i].hours[j].hour, cs[i].hours[j].lmp) == Some(r);
  }
}
