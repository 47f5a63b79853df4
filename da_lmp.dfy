/** The DAHourlyIntertieLMP report: the day-ahead "Intertie LMP" of each hour for each intertie
    point, all stamped with the report's creation time. */
module DayAheadLmp {
  import opened Wrappers
  import opened Text
  import opened Numbers
  import opened Clock
  import opened Records
  import opened IntertieLmp

  /** A decoded DAHourlyIntertieLMP document: the DocHeader's CreatedAt as the wall-clock time
      it names (none when it is missing, empty or rejected by `fromisoformat`), its DocBody, and
      its IntertieLMPrice elements, whose entries are HourlyLMP elements (DeliveryHour, LMP). */
  datatype DaLmpDoc = DaLmpDoc(createdAt: Option<DateTime>, body: Option<DeliveryBody>, prices: seq<IntertiePrice>)

  /** The timestamp every record of the report carries: the creation time, or the current UTC
      time `utcNow` when there is none. */
  function ReportStamp(doc: DaLmpDoc, utcNow: DateTime): DateTime {
    doc.createdAt.GetOr(utcNow)
  }

  /** The record of one HourlyLMP: none when a text is missing or does not parse. The hour is
      not range-checked. */
  function HourlyRecord(stamp: DateTime, deliveryDate: string, zone: string, e: LmpEntry): Option<Record> {
    if !Present(e.slot) || !Present(e.lmp) then None
    else
      match (ParseInt(e.slot.value), ParseNum(e.lmp.value))
      case (Some(h), Some(v)) => Some(DayAheadIntertieLmp(stamp, deliveryDate, h, zone, v))
      case _ => None
  }

  function HourlyEmitter(stamp: DateTime, deliveryDate: string): Emitter {
    (zone: string, e: LmpEntry) => HourlyRecord(stamp, deliveryDate, zone, e)
  }

  /** The records of a document: none without a DocBody or a DeliveryDate. */
  function DaLmpOf(doc: DaLmpDoc, utcNow: DateTime): seq<Record> {
    if doc.body.None? || !Present(doc.body.value.deliveryDate) then []
    else PricesRecords(HourlyEmitter(ReportStamp(doc, utcNow), doc.body.value.deliveryDate.value), doc.prices)
  }

  /** `fetch_da_intertie_lmp` once the document is decoded. */
  method ExtractDaLmp(doc: DaLmpDoc, utcNow: DateTime) returns (records: seq<Record>)
    ensures records == DaLmpOf(doc, utcNow)
  {
    var stamp := ReportStamp(doc, utcNow);
    if doc.body.None? || !Present(doc.body.value.deliveryDate) {
      return [];
    }
    records := AppendPrices(HourlyEmitter(stamp, doc.body.value.deliveryDate.value), doc.prices);
  }

  /** An HourlyLMP yields a record exactly when both texts are present and parse. */
  lemma HourlyRecordSpec(stamp: DateTime, deliveryDate: string, zone: string, e: LmpEntry)
    ensures var r := HourlyRecord(stamp, deliveryDate, zone, e);
      && (r.Some? <==> Present(e.slot) && Present(e.lmp) && ParseInt(e.slot.value).Some? && ParseNum(e.lmp.value).Some?)
      && (r.Some? ==> r.value == DayAheadIntertieLmp(stamp, deliveryDate, ParseInt(e.slot.value).value, zone, ParseNum(e.lmp.value).value))
  {
  }

  /** All records of one report share one timestamp and the DocBody's delivery date, and each is
      labelled with the zone group of a named intertie point. */
  lemma DaLmpShape(doc: DaLmpDoc, utcNow: DateTime, r: Record)
    requires r in DaLmpOf(doc, utcNow)
    ensures r.DayAheadIntertieLmp? && r.timestamp == ReportStamp(doc, utcNow)
    ensures doc.body.Some? && Present(doc.body.value.deliveryDate) && r.deliveryDate == doc.body.value.deliveryDate.value
    ensures exists k :: 0 <= k < |doc.prices| && Present(doc.prices[k].plName) && r.intertieZone == MapZone(doc.prices[k].plName.value)
  {
    var stamp := ReportStamp(doc, utcNow);
    var date := doc.body.value.deliveryDate.value;
    var emit := HourlyEmitter(stamp, date);
    PricesRecordsMembers(emit, doc.prices, r);
    var k, i, j :| 0 <= k < |doc.prices| && Present(doc.prices[k].plName)
                   && 0 <= i < |doc.prices[k].components| && doc.prices[k].components[i].lmpComponent == Some(IntertieLmpComponent)
                   && 0 <= j < |doc.prices[k].components[i].entries|
                   && emit(MapZone(doc.prices[k].plName.value), doc.prices[k].components[i].entries[j]) == Some(r);
    var zone := MapZone(doc.prices[k].plName.value);
    var e := doc.prices[k].components[i].entries[j];
    assert HourlyRecord(stamp, date, zone, e) == Some(r);
    HourlyRecordSpec(stamp, date, zone, e);
    assert 0 <= k < |doc.prices| && Present(doc.prices[k].plName) && r.intertieZone == MapZone(doc.prices[k].plName.value);
  }
}
