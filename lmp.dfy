/** The RealTimeIntertieLMP report, and what it shares with the day-ahead intertie LMP report:
    intertie point names grouped into flow zones, and the IntertieLMPrice / Components / entry
    nesting of which only the "Intertie LMP" component counts. */
module IntertieLmp {
  import opened Wrappers
  import opened Text
  import opened Numbers
  import opened Calendar
  import opened Clock
  import opened Records

  const LmpSuffix := ":LMP"
  const Quebec := "QUEBEC"
  const IntertieLmpComponent := "Intertie LMP"

  /** The zone group of an intertie point name's last `_`-separated part, if it has one. */
  function SuffixZone(suffix: string): Option<string> {
    if suffix == "NYSI" then Some("NEW-YORK")
    else if suffix == "MISI" then Some("MICHIGAN")
    else if suffix == "MNSI" then Some("MINNESOTA")
    else if suffix == "MBSK" || suffix == "MBSI" then Some("MANITOBA")
    else None
  }

  /** `_map_zone`: drop ":LMP"; Quebec points first; then the suffix table, falling back to the
      cleaned name. */
  function MapZone(name: string): string {
    var clean := Replace(name, LmpSuffix, "");
    if StartsWith(clean, "PQ.") || Contains(clean, "_PQ") then Quebec
    else
      var suffix := if '_' in clean then AfterLast(clean, '_') else "";
      SuffixZone(suffix).GetOr(clean)
  }

  /** An IntervalLMP or HourlyLMP element: its Interval or DeliveryHour text and its LMP text. */
  datatype LmpEntry = LmpEntry(slot: Option<string>, lmp: Option<string>)
  /** A Components element: its LMPComponent text and its entries. */
  datatype LmpComponents = LmpComponents(lmpComponent: Option<string>, entries: seq<LmpEntry>)
  /** An IntertieLMPrice element: its IntertiePLName text and its Components elements. */
  datatype IntertiePrice = IntertiePrice(plName: Option<string>, components: seq<LmpComponents>)

  /** How one report turns an entry of a zone into a record, if it does. */
  type Emitter = (string, LmpEntry) -> Option<Record>

  function EntryRecords(emit: Emitter, zone: string, es: seq<LmpEntry>): seq<Record> {
    if es == [] then [] else Keep(emit(zone, es[0])) + EntryRecords(emit, zone, es[1..])
  }

  /** Only an "Intertie LMP" component contributes. */
  function ComponentsRecords(emit: Emitter, zone: string, cs: seq<LmpComponents>): seq<Record> {
    if cs == [] then []
    else
      var rest := ComponentsRecords(emit, zone, cs[1..]);
      if cs[0].lmpComponent == Some(IntertieLmpComponent) then EntryRecords(emit, zone, cs[0].entries) + rest
      else rest
  }

  /** An element without an IntertiePLName is skipped; the others are labelled by `MapZone`. */
  function PricesRecords(emit: Emitter, ps: seq<IntertiePrice>): seq<Record> {
    if ps == [] then []
    else
      var rest := PricesRecords(emit, ps[1..]);
      if !Present(ps[0].plName) then rest
      else ComponentsRecords(emit, MapZone(ps[0].plName.value), ps[0].components) + rest
  }

  /** The entry loop of one component. */
  method AppendEntries(emit: Emitter, zone: string, es: seq<LmpEntry>, records0: seq<Record>) returns (records: seq<Record>)
    ensures records == records0 + EntryRecords(emit, zone, es)
  {
    records := records0;
    assert es[0..] == es;
    for i := 0 to |es|
      invariant records + EntryRecords(emit, zone, es[i..]) == records0 + EntryRecords(emit, zone, es)
    {
      assert es[i..][1..] == es[i + 1..];
      var r := emit(zone, es[i]);
      if r.Some? {
        records := records + [r.value];
      }
    }
    assert records + [] == records;
  }

  /** The Components loop of one intertie point. */
  method AppendComponents(emit: Emitter, zone: string, cs: seq<LmpComponents>, records0: seq<Record>) returns (records: seq<Record>)
    ensures records == records0 + ComponentsRecords(emit, zone, cs)
  {
    records := records0;
    assert cs[0..] == cs;
    for i := 0 to |cs|
      invariant records + ComponentsRecords(emit, zone, cs[i..]) == records0 + ComponentsRecords(emit, zone, cs)
    {
      assert cs[i..][1..] == cs[i + 1..];
      if cs[i].lmpComponent == Some(IntertieLmpComponent) {
        ghost var before := records;
        records := AppendEntries(emit, zone, cs[i].entries, records);
        AppendAssoc(before, EntryRecords(emit, zone, cs[i].entries), ComponentsRecords(emit, zone, cs[i + 1..]));
      }
    }
    assert records + [] == records;
  }

  /** The IntertieLMPrice loop. */
  method AppendPrices(emit: Emitter, ps: seq<IntertiePrice>) returns (records: seq<Record>)
    ensures records == PricesRecords(emit, ps)
  {
    records := [];
    assert ps[0..] == ps;
    for i := 0 to |ps|
      invariant records + PricesRecords(emit, ps[i..]) == PricesRecords(emit, ps)
    {
      assert ps[i..][1..] == ps[i + 1..];
      if Present(ps[i].plName) {
        var zone := MapZone(ps[i].plName.value);
        ghost var before := records;
        records := AppendComponents(emit, zone, ps[i].components, records);
        AppendAssoc(before, ComponentsRecords(emit, zone, ps[i].components), PricesRecords(emit, ps[i + 1..]));
      }
    }
    assert records + [] == records;
  }

  /** A record comes from an element exactly when a named element's "Intertie LMP" component has
      an entry that yields it under the element's zone group. */
  lemma {:induction false} PricesRecordsMembers(emit: Emitter, ps: seq<IntertiePrice>, r: Record)
    ensures r in PricesRecords(emit, ps)
            <==> exists k, i, j :: 0 <= k < |ps| && Present(ps[k].plName)
                   && 0 <= i < |ps[k].components| && ps[k].components[i].lmpComponent == Some(IntertieLmpComponent)
                   && 0 <= j < |ps[k].components[i].entries|
                   && emit(MapZone(ps[k].plName.value), ps[k].components[i].entries[j]) == Some(r)
  {
    if ps != [] {
      PricesRecordsMembers(emit, ps[1..], r);
      var p := ps[0];
      if Present(p.plName) {
        ComponentsRecordsMembers(emit, MapZone(p.plName.value), p.components, r);
      }
      forall k, i, j | 1 <= k < |ps| && Present(ps[k].plName)
          && 0 <= i < |ps[k].components| && ps[k].components[i].lmpComponent == Some(IntertieLmpComponent)
          && 0 <= j < |ps[k].components[i].entries|
          && emit(MapZone(ps[k].plName.value), ps[k].components[i].entries[j]) == Some(r)
        ensures r in PricesRecords(emit, ps[1..])
      {
        assert ps[1..][k - 1] == ps[k];
      }
      if r in PricesRecords(emit, ps[1..]) {
        var k, i, j :| 0 <= k < |ps[1..]| && Present(ps[1..][k].plName)
                   && 0 <= i < |ps[1..][k].components| && ps[1..][k].components[i].lmpComponent == Some(IntertieLmpComponent)
                   && 0 <= j < |ps[1..][k].components[i].entries|
                   && emit(MapZone(ps[1..][k].plName.value), ps[1..][k].components[i].entries[j]) == Some(r);
        assert ps[k + 1] == ps[1..][k];
      }
    }
  }

  lemma {:induction false} ComponentsRecordsMembers(emit: Emitter, zone: string, cs: seq<LmpComponents>, r: Record)
    ensures r in ComponentsRecords(emit, zone, cs)
            <==> exists i, j :: 0 <= i < |cs| && cs[i].lmpComponent == Some(IntertieLmpComponent)
                   && 0 <= j < |cs[i].entries| && emit(zone, cs[i].entries[j]) == Some(r)
  {
    if cs != [] {
      ComponentsRecordsMembers(emit, zone, cs[1..], r);
      EntryRecordsMembers(emit, zone, cs[0].entries, r);
      forall i, j | 1 <= i < |cs| && cs[i].lmpComponent == Some(IntertieLmpComponent)
          && 0 <= j < |cs[i].entries| && emit(zone, cs[i].entries[j]) == Some(r)
        ensures r in ComponentsRecords(emit, zone, cs[1..])
      {
        assert cs[1..][i - 1] == cs[i];
      }
      if r in ComponentsRecords(emit, zone, cs[1..]) {
        var i, j :| 0 <= i < |cs[1..]| && cs[1..][i].lmpComponent == Some(IntertieLmpComponent)
                   && 0 <= j < |cs[1..][i].entries| && emit(zone, cs[1..][i].entries[j]) == Some(r);
        assert cs[i + 1] == cs[1..][i];
      }
    }
  }

  lemma {:induction false} EntryRecordsMembers(emit: Emitter, zone: string, es: seq<LmpEntry>, r: Record)
    ensures r in EntryRecords(emit, zone, es) <==> exists j :: 0 <= j < |es| && emit(zone, es[j]) == Some(r)
  {
    if es != [] {
      EntryRecordsMembers(emit, zone, es[1..], r);
      if r in EntryRecords(emit, zone, es[1..]) {
        var j :| 0 <= j < |es[1..]| && emit(zone, es[1..][j]) == Some(r);
        assert es[j + 1] == es[1..][j];
      }
      forall j | 1 <= j < |es| && emit(zone, es[j]) == Some(r)
        ensures r in EntryRecords(emit, zone, es[1..])
      {
        assert es[1..][j - 1] == es[j];
      }
    }
  }

  /** Removing ":LMP" from the end of a point name does not change its zone group. */
  lemma MapZoneDropsLmp(name: string)
    requires ':' !in name
    ensures MapZone(name + LmpSuffix) == MapZone(name)
  {
    ReplaceDropsSuffix(name, LmpSuffix);
    NotContainsWithoutHead(name, LmpSuffix);
  }

  /** Every point whose name starts with "PQ." is in the Quebec group, whatever its suffix. */
  lemma MapZoneQuebecPrefix(rest: string)
    requires ':' !in rest
    ensures MapZone("PQ." + rest) == Quebec
  {
    var name := "PQ." + rest;
    assert ':' !in name;
    NotContainsWithoutHead(name, LmpSuffix);
    assert name[..3] == "PQ.";
  }

  /** A non-Quebec name `prefix_SUFFIX` whose suffix is in the table gets that suffix's group:
      only the part after the last `_` matters. */
  lemma MapZoneOfSuffix(prefix: string, suffix: string)
    requires ':' !in prefix && ':' !in suffix && '_' !in suffix
    requires !StartsWith(prefix + "_" + suffix, "PQ.") && !Contains(prefix + "_" + suffix, "_PQ")
    requires SuffixZone(suffix).Some?
    ensures MapZone(prefix + "_" + suffix) == SuffixZone(suffix).value
  {
    var name := prefix + "_" + suffix;
    assert ':' !in name;
    NotContainsWithoutHead(name, LmpSuffix);
    assert name[|prefix|] == '_';
    assert name == prefix + ['_'] + suffix;
    AfterLastOfJoin(prefix, '_', suffix);
  }

  /** A non-Quebec name without `_`, or whose suffix is not in the table, is its own group. */
  lemma MapZoneKeepsName(name: string)
    requires ':' !in name
    requires !StartsWith(name, "PQ.") && !Contains(name, "_PQ")
    requires '_' !in name || SuffixZone(AfterLast(name, '_')).None?
    ensures MapZone(name) == name
  {
    NotContainsWithoutHead(name, LmpSuffix);
  }

  /** The group is one of the five named groups or the name without ":LMP". */
  lemma MapZoneRange(name: string)
    ensures var z := MapZone(name);
      || z == Quebec || z == "NEW-YORK" || z == "MICHIGAN" || z == "MINNESOTA" || z == "MANITOBA"
      || z == Replace(name, LmpSuffix, "")
  {
    var clean := Replace(name, LmpSuffix, "");
    if !(StartsWith(clean, "PQ.") || Contains(clean, "_PQ")) {
      var suffix := if '_' in clean then AfterLast(clean, '_') else "";
      assert MapZone(name) == SuffixZone(suffix).GetOr(clean);
    }
  }

  /** The DocBody of the realtime report: its DeliveryDate and DeliveryHour texts. */
  datatype LmpBody = LmpBody(deliveryDate: Option<string>, deliveryHour: Option<string>)
  /** A decoded RealTimeIntertieLMP document. */
  datatype LmpDoc = LmpDoc(body: Option<LmpBody>, prices: seq<IntertiePrice>)

  /** The record of one IntervalLMP: none when a text is missing, the interval number does not
      parse, the hour or interval is out of range, or the LMP does not parse. */
  function RealtimeRecord(base: Date, deliveryHour: int, zone: string, e: LmpEntry): Option<Record> {
    if !Present(e.slot) || !Present(e.lmp) then None
    else
      match (IntervalTime(base, deliveryHour, e.slot.value), ParseNum(e.lmp.value))
      case (Some(ts), Some(v)) => Some(IntertieLmp(ts, zone, v))
      case _ => None
  }

  function RealtimeEmitter(base: Date, deliveryHour: int): Emitter {
    (zone: string, e: LmpEntry) => RealtimeRecord(base, deliveryHour, zone, e)
  }

  /** The records of a document: none without a DocBody or a usable DeliveryDate/DeliveryHour. */
  function RealtimeLmpOf(doc: LmpDoc): seq<Record> {
    if doc.body.None? then []
    else
      match DeliveryHeader(doc.body.value.deliveryDate, doc.body.value.deliveryHour)
      case None => []
      case Some((base, hour)) => PricesRecords(RealtimeEmitter(base, hour), doc.prices)
  }

  /** `fetch_realtime_intertie_lmp` once the document is decoded. */
  method ExtractRealtimeLmp(doc: LmpDoc) returns (records: seq<Record>)
    ensures records == RealtimeLmpOf(doc)
  {
    if doc.body.None? {
      return [];
    }
    var header := DeliveryHeader(doc.body.value.deliveryDate, doc.body.value.deliveryHour);
    if header.None? {
      return [];
    }
    var (base, hour) := header.value;
    records := AppendPrices(RealtimeEmitter(base, hour), doc.prices);
  }

  /** An interval yields a record exactly when its texts are present, its interval is 1..12 of
      an hour 1..24 and its LMP parses; the record is stamped at that interval's start. */
  lemma RealtimeRecordSpec(base: Date, deliveryHour: int, zone: string, e: LmpEntry)
    ensures var r := RealtimeRecord(base, deliveryHour, zone, e);
      && (r.Some? <==> Present(e.slot) && Present(e.lmp) && ParseInt(e.slot.value).Some?
                       && 1 <= deliveryHour <= 24 && 1 <= ParseInt(e.slot.value).value <= 12
                       && ParseNum(e.lmp.value).Some?)
      && (r.Some? ==> && r.value.IntertieLmp? && r.value.intertieZone == zone
                      && Some(r.value.timestamp) == IntervalStart(base, deliveryHour, ParseInt(e.slot.value).value)
                      && Some(r.value.lmp) == ParseNum(e.lmp.value))
  {
  }

  /** Every record of a document is a "Intertie LMP" value at a 5-minute mark of its delivery
      hour, labelled with the zone group of a named intertie point. */
  lemma RealtimeLmpShape(doc: LmpDoc, r: Record)
    requires r in RealtimeLmpOf(doc)
    ensures doc.body.Some? && DeliveryHeader(doc.body.value.deliveryDate, doc.body.value.deliveryHour).Some?
    ensures var (base, hour) := DeliveryHeader(doc.body.value.deliveryDate, doc.body.value.deliveryHour).value;
      && r.IntertieLmp? && InDeliveryHour(r.timestamp, base, hour)
      && exists k :: 0 <= k < |doc.prices| && Present(doc.prices[k].plName) && r.intertieZone == MapZone(doc.prices[k].plName.value)
  {
    var (base, hour) := DeliveryHeader(doc.body.value.deliveryDate, doc.body.value.deliveryHour).value;
    var emit := RealtimeEmitter(base, hour);
    PricesRecordsMembers(emit, doc.prices, r);
    var k, i, j :| 0 <= k < |doc.prices| && Present(doc.prices[k].plName)
                   && 0 <= i < |doc.prices[k].components| && doc.prices[k].components[i].lmpComponent == Some(IntertieLmpComponent)
                   && 0 <= j < |doc.prices[k].components[i].entries|
                   && emit(MapZone(doc.prices[k].plName.value), doc.prices[k].components[i].entries[j]) == Some(r);
    var zone := MapZone(doc.prices[k].plName.value);
    var e := doc.prices[k].components[i].entries[j];
    assert RealtimeRecord(base, hour, zone, e) == Some(r);
    RealtimeRecordSpec(base, hour, zone, e);
    var ts := IntervalStart(base, hour, ParseInt(e.slot.value).value);
    assert ts == Some(r.timestamp);
    IntervalStartInHour(base, hour, ParseInt(e.slot.value).value);
    assert r.intertieZone == zone;
    assert 0 <= k < |doc.prices| && Present(doc.prices[k].plName) && r.intertieZone == MapZone(doc.prices[k].plName.value);
  }
}
