/** The GenOutputbyFuelHourly report: per day, per hour, the output of each fuel type. */
module FuelMix {
  import opened Wrappers
  import opened Text
  import opened Numbers
  import opened Calendar
  import opened Clock
  import opened Records

  /** An EnergyValue element: its Output text. */
  datatype EnergyValue = EnergyValue(output: Option<string>)
  /** A FuelTotal element: its Fuel text and its EnergyValue element, if any. */
  datatype FuelTotal = FuelTotal(fuel: Option<string>, energyValue: Option<EnergyValue>)
  /** An HourlyData element: its Hour text and its FuelTotal elements. */
  datatype HourlyData = HourlyData(hour: Option<string>, fuels: seq<FuelTotal>)
  /** A DailyData element: its Day text and its HourlyData elements. */
  datatype DailyData = DailyData(day: Option<string>, hours: seq<HourlyData>)

  /** The start of an HourlyData's hour: none when the Hour text is missing or empty, does not
      parse, or is outside 1..24. */
  function HourStamp(base: Date, hour: Option<string>): Option<DateTime> {
    if !Present(hour) then None
    else
      match ParseInt(hour.value)
      case None => None
      case Some(h) => HourStart(base, h)
  }

  /** The record of one FuelTotal: none without a Fuel, an EnergyValue or an Output, or when the
      Output does not parse. */
  function FuelRecord(ts: DateTime, f: FuelTotal): Option<Record> {
    if !Present(f.fuel) || f.energyValue.None? || !Present(f.energyValue.value.output) then None
    else
      match ParseNum(f.energyValue.value.output.value)
      case None => None
      case Some(v) => Some(Supply(ts, f.fuel.value, v))
  }

  function FuelRecords(ts: DateTime, fs: seq<FuelTotal>): seq<Record> {
    if fs == [] then [] else Keep(FuelRecord(ts, fs[0])) + FuelRecords(ts, fs[1..])
  }

  function HoursRecords(base: Date, hs: seq<HourlyData>): seq<Record> {
    if hs == [] then []
    else
      var rest := HoursRecords(base, hs[1..]);
      match HourStamp(base, hs[0].hour)
      case None => rest
      case Some(ts) => FuelRecords(ts, hs[0].fuels) + rest
  }

  /** The records of the report: day by day, hour by hour, fuel by fuel, in document order. */
  function FuelMixOf(ds: seq<DailyData>): seq<Record> {
    if ds == [] then []
    else
      var rest := FuelMixOf(ds[1..]);
      match DateOf(ds[0].day)
      case None => rest
      case Some(base) => HoursRecords(base, ds[0].hours) + rest
  }

  /** The FuelTotal loop of one hour. */
  method AppendFuels(ts: DateTime, fs: seq<FuelTotal>, records0: seq<Record>) returns (records: seq<Record>)
    ensures records == records0 + FuelRecords(ts, fs)
  {
    records := records0;
    assert fs[0..] == fs;
    for i := 0 to |fs|
      invariant records + FuelRecords(ts, fs[i..]) == records0 + FuelRecords(ts, fs)
    {
      assert fs[i..][1..] == fs[i + 1..];
      var r := FuelRecord(ts, fs[i]);
      if r.Some? {
        records := records + [r.value];
      }
    }
    assert records + [] == records;
  }

  /** The HourlyData loop of one day. */
  method AppendHours(base: Date, hs: seq<HourlyData>, records0: seq<Record>) returns (records: seq<Record>)
    ensures records == records0 + HoursRecords(base, hs)
  {
    records := records0;
    assert hs[0..] == hs;
    for i := 0 to |hs|
      invariant records + HoursRecords(base, hs[i..]) == records0 + HoursRecords(base, hs)
    {
      assert hs[i..][1..] == hs[i + 1..];
      var ts := HourStamp(base, hs[i].hour);
      if ts.Some? {
        ghost var before := records;
        records := AppendFuels(ts.value, hs[i].fuels, records);
        AppendAssoc(before, FuelRecords(ts.value, hs[i].fuels), HoursRecords(base, hs[i + 1..]));
      }
    }
    assert records + [] == records;
  }

  /** `fetch_fuel_mix` once the document is decoded: the DailyData loop. */
  method ExtractFuelMix(ds: seq<DailyData>) returns (records: seq<Record>)
    ensures records == FuelMixOf(ds)
  {
    records := [];
    assert ds[0..] == ds;
    for i := 0 to |ds|
      invariant records + FuelMixOf(ds[i..]) == FuelMixOf(ds)
    {
      assert ds[i..][1..] == ds[i + 1..];
      var base := DateOf(ds[i].day);
      if base.Some? {
        ghost var before := records;
        records := AppendHours(base.value, ds[i].hours, records);
        AppendAssoc(before, HoursRecords(base.value, ds[i].hours), FuelMixOf(ds[i + 1..]));
      }
    }
    assert records + [] == records;
  }

  /** An hour has a start exactly when its text is a number 1..24, and it starts on the hour. */
  lemma HourStampSpec(base: Date, hour: Option<string>)
    ensures HourStamp(base, hour).Some? <==> Present(hour) && ParseInt(hour.value).Some? && 1 <= ParseInt(hour.value).value <= 24
    ensures HourStamp(base, hour).Some? ==> HourStamp(base, hour).value == DateTime(base, ParseInt(hour.value).value - 1, 0, 0)
  {
  }

  /** A FuelTotal yields a record exactly when it has a Fuel and a parseable Output, and the
      record carries the hour's start, the fuel and the output. */
  lemma FuelRecordSpec(ts: DateTime, f: FuelTotal)
    ensures FuelRecord(ts, f).Some? <==>
              Present(f.fuel) && f.energyValue.Some? && Present(f.energyValue.value.output)
              && ParseNum(f.energyValue.value.output.value).Some?
    ensures FuelRecord(ts, f).Some? ==>
              FuelRecord(ts, f).value == Supply(ts, f.fuel.value, ParseNum(f.energyValue.value.output.value).value)
  {
  }

  lemma {:induction false} FuelRecordsMembers(ts: DateTime, fs: seq<FuelTotal>, r: Record)
    ensures r in FuelRecords(ts, fs) <==> exists j :: 0 <= j < |fs| && FuelRecord(ts, fs[j]) == Some(r)
  {
    if fs != [] {
      FuelRecordsMembers(ts, fs[1..], r);
      if r in FuelRecords(ts, fs[1..]) {
        var j :| 0 <= j < |fs[1..]| && FuelRecord(ts, fs[1..][j]) == Some(r);
        assert fs[j + 1] == fs[1..][j];
      }
      forall j | 1 <= j < |fs| && FuelRecord(ts, fs[j]) == Some(r)
        ensures r in FuelRecords(ts, fs[1..])
      {
        assert fs[1..][j - 1] == fs[j];
      }
    }
  }

  lemma {:induction false} HoursRecordsMembers(base: Date, hs: seq<HourlyData>, r: Record)
    ensures r in HoursRecords(base, hs)
            <==> exists i :: 0 <= i < |hs| && HourStamp(base, hs[i].hour).Some?
                             && r in FuelRecords(HourStamp(base, hs[i].hour).value, hs[i].fuels)
  {
    if hs != [] {
      HoursRecordsMembers(base, hs[1..], r);
      if r in HoursRecords(base, hs[1..]) {
        var i :| 0 <= i < |hs[1..]| && HourStamp(base, hs[1..][i].hour).Some?
                 && r in FuelRecords(HourStamp(base, hs[1..][i].hour).value, hs[1..][i].fuels);
        assert hs[i + 1] == hs[1..][i];
      }
      forall i | 1 <= i < |hs| && HourStamp(base, hs[i].hour).Some?
                 && r in FuelRecords(HourStamp(base, hs[i].hour).value, hs[i].fuels)
        ensures r in HoursRecords(base, hs[1..])
      {
        assert hs[1..][i - 1] == hs[i];
      }
    }
  }

  lemma {:induction false} FuelMixMembers(ds: seq<DailyData>, r: Record)
    ensures r in FuelMixOf(ds)
            <==> exists k :: 0 <= k < |ds| && DateOf(ds[k].day).Some? && r in HoursRecords(DateOf(ds[k].day).value, ds[k].hours)
  {
    if ds != [] {
      FuelMixMembers(ds[1..], r);
      if r in FuelMixOf(ds[1..]) {
        var k :| 0 <= k < |ds[1..]| && DateOf(ds[1..][k].day).Some? && r in HoursRecords(DateOf(ds[1..][k].day).value, ds[1..][k].hours);
        assert ds[k + 1] == ds[1..][k];
      }
      forall k | 1 <= k < |ds| && DateOf(ds[k].day).Some? && r in HoursRecords(DateOf(ds[k].day).value, ds[k].hours)
        ensures r in FuelMixOf(ds[1..])
      {
        assert ds[1..][k - 1] == ds[k];
      }
    }
  }

  /** Every record is a fuel output at the start of an hour 1..24 of a day some DailyData names. */
  lemma FuelMixShape(ds: seq<DailyData>, r: Record)
    requires r in FuelMixOf(ds)
    ensures r.Supply? && r.timestamp.minute == 0 && r.timestamp.second == 0 && 0 <= r.timestamp.hour < 24
    ensures exists k :: 0 <= k < |ds| && DateOf(ds[k].day) == Some(r.timestamp.date)
  {
    FuelMixMembers(ds, r);
    var k :| 0 <= k < |ds| && DateOf(ds[k].day).Some? && r in HoursRecords(DateOf(ds[k].day).value, ds[k].hours);
    var base := DateOf(ds[k].day).value;
    HoursRecordsMembers(base, ds[k].hours, r);
    var i :| 0 <= i < |ds[k].hours| && HourStamp(base, ds[k].hours[i].hour).Some?
             && r in FuelRecords(HourStamp(base, ds[k].hours[i].hour).value, ds[k].hours[i].fuels);
    var ts := HourStamp(base, ds[k].hours[i].hour).value;
    HourStampSpec(base, ds[k].hours[i].hour);
    FuelRecordsMembers(ts, ds[k].hours[i].fuels, r);
    var j :| 0 <= j < |ds[k].hours[i].fuels| && FuelRecord(ts, ds[k].hours[i].fuels[j]) == Some(r);
    FuelRecordSpec(ts, ds[k].hours[i].fuels[j]);
    assert r.timestamp == ts;
  }
}
