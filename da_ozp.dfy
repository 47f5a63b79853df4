/** The DAHourlyOntarioZonalPrice report: the day-ahead Ontario-wide price of each hour of the
    next delivery day, fetched with retries. */
module DayAheadOzp {
  import opened Wrappers
  import opened Text
  import opened Numbers
  import opened Clock
  import opened Records
  import opened Retry

  /** An HourlyPriceComponents element: its PricingHour and ZonalPrice texts. */
  datatype HourlyPriceComponent = HourlyPriceComponent(pricingHour: Option<string>, zonalPrice: Option<string>)
  /** A decoded DAHourlyOntarioZonalPrice document. */
  datatype OzpDoc = OzpDoc(body: Option<DeliveryBody>, components: seq<HourlyPriceComponent>)

  /** The record of one hour's price text: none when either text is missing or does not parse.
      The hour is not range-checked. */
  function HourPrice(now: DateTime, deliveryDate: string, zone: string, hour: Option<string>, price: Option<string>): Option<Record> {
    if !Present(hour) || !Present(price) then None
    else
      match (ParseInt(hour.value), ParseNum(price.value))
      case (Some(h), Some(p)) => Some(DayAheadPrice(now, deliveryDate, h, zone, p))
      case _ => None
  }

  function ComponentRecord(now: DateTime, deliveryDate: string, c: HourlyPriceComponent): Option<Record> {
    HourPrice(now, deliveryDate, OntarioZone, c.pricingHour, c.zonalPrice)
  }

  /** The records of the components, in document order. */
  function ComponentRecords(now: DateTime, deliveryDate: string, cs: seq<HourlyPriceComponent>): seq<Record> {
    if cs == [] then []
    else Keep(ComponentRecord(now, deliveryDate, cs[0])) + ComponentRecords(now, deliveryDate, cs[1..])
  }

  /** The records of a fetched document: none without a DocBody or a DeliveryDate. */
  function OzpOf(now: DateTime, doc: OzpDoc): seq<Record> {
    if doc.body.None? || !Present(doc.body.value.deliveryDate) then []
    else ComponentRecords(now, doc.body.value.deliveryDate.value, doc.components)
  }

  /** What `fetch_da_ozp` returns, where `server(k)` is the outcome of the k-th request. A 404
      is not checked before `raise_for_status`, so it is retried like any HTTP error. */
  ghost function FetchedOzp(now: DateTime, server: nat -> Attempt<OzpDoc>): seq<Record> {
    var run := RunFrom(server, false, 0);
    if run.root.None? then [] else OzpOf(now, run.root.value)
  }

  /** The HourlyPriceComponents loop. */
  method AppendComponents(now: DateTime, deliveryDate: string, cs: seq<HourlyPriceComponent>) returns (records: seq<Record>)
    ensures records == ComponentRecords(now, deliveryDate, cs)
  {
    records := [];
    assert cs[0..] == cs;
    for i := 0 to |cs|
      invariant records + ComponentRecords(now, deliveryDate, cs[i..]) == ComponentRecords(now, deliveryDate, cs)
    {
      assert cs[i..][1..] == cs[i + 1..];
      var r := ComponentRecord(now, deliveryDate, cs[i]);
      if r.Some? {
        records := records + [r.value];
      }
    }
    assert records + [] == records;
  }

  /** `fetch_da_ozp`: the retry loop (for-else), then the parse. */
  method FetchDaOzp(now: DateTime, server: nat -> Attempt<OzpDoc>) returns (records: seq<Record>)
    ensures records == FetchedOzp(now, server)
  {
    var root, calls, sleeps := FetchWithRetry(server, false);
    if root.None? {
      return [];
    }
    var doc := root.value;
    if doc.body.None? || !Present(doc.body.value.deliveryDate) {
      return [];
    }
    records := AppendComponents(now, doc.body.value.deliveryDate.value, doc.components);
  }

  /** A price record comes out exactly when both texts are present and parse, and it carries the
      given stamp, date and zone with the parsed hour and price. */
  lemma HourPriceSpec(now: DateTime, deliveryDate: string, zone: string, hour: Option<string>, price: Option<string>)
    ensures var r := HourPrice(now, deliveryDate, zone, hour, price);
      && (r.Some? <==> Present(hour) && Present(price) && ParseInt(hour.value).Some? && ParseNum(price.value).Some?)
      && (r.Some? ==> r.value == DayAheadPrice(now, deliveryDate, ParseInt(hour.value).value, zone, ParseNum(price.value).value))
  {
  }

  /** A record is in the output exactly when some component yields it. */
  lemma {:induction false} ComponentRecordsMembers(now: DateTime, deliveryDate: string, cs: seq<HourlyPriceComponent>, r: Record)
    ensures r in ComponentRecords(now, deliveryDate, cs)
            <==> exists i :: 0 <= i < |cs| && ComponentRecord(now, deliveryDate, cs[i]) == Some(r)
  {
    if cs != [] {
      ComponentRecordsMembers(now, deliveryDate, cs[1..], r);
      if r in ComponentRecords(now, deliveryDate, cs) && ComponentRecord(now, deliveryDate, cs[0]) != Some(r) {
        var i :| 0 <= i < |cs[1..]| && ComponentRecord(now, deliveryDate, cs[1..][i]) == Some(r);
        assert cs[i + 1] == cs[1..][i];
      }
      if i :| 0 <= i < |cs| && ComponentRecord(now, deliveryDate, cs[i]) == Some(r) {
        if i > 0 {
          assert cs[1..][i - 1] == cs[i];
        }
      }
    }
  }

  /** Every record is an Ontario price of the DocBody's date, stamped with the fetch time. */
  lemma OzpRecordsShape(now: DateTime, doc: OzpDoc, r: Record)
    requires r in OzpOf(now, doc)
    ensures r.DayAheadPrice? && r.timestamp == now && r.zone == OntarioZone
    ensures doc.body.Some? && Present(doc.body.value.deliveryDate) && r.deliveryDate == doc.body.value.deliveryDate.value
  {
    var date := doc.body.value.deliveryDate.value;
    ComponentRecordsMembers(now, date, doc.components, r);
    var i :| 0 <= i < |doc.components| && ComponentRecord(now, date, doc.components[i]) == Some(r);
  }

  /** Unlike the Adequacy3 fetch, a 404 is retried: a report served on the second request is
      parsed as if it had come first. */
  lemma NotFoundRetried(now: DateTime, server: nat -> Attempt<OzpDoc>)
    requires server(0) == NotFound && server(1).Got?
    ensures FetchedOzp(now, server) == OzpOf(now, server(1).doc)
  {
  }
}
