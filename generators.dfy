/** The GenOutputCapability report: per generator, the hourly output and capability of one day,
    merged by hour into one record per hour. */
module GeneratorOutput {
  import opened Wrappers
  import opened Text
  import opened Calendar
  import opened Clock
  import opened Records
  import opened Merge
  import opened Ordering

  /** A Generator element: its name, fuel type, Output entries and Capability entries. */
  datatype Generator = Generator(name: Option<string>, fuelType: Option<string>,
                                 outputs: seq<HourlyEntry>, capabilities: seq<HourlyEntry>)
  /** A decoded GenOutputCapability document: its IMODocBody, if any, and its generators. */
  datatype GeneratorDoc = GeneratorDoc(body: Option<ImoDocBody>, generators: seq<Generator>)

  const OtherFuel := "OTHER"

  /** `fuel_type or "OTHER"`. */
  function FuelLabel(fuelType: Option<string>): string {
    if Present(fuelType) then fuelType.value else OtherFuel
  }

  /** The records of the listed hours, in order; an hour outside 1..24 makes `replace` raise and
      is skipped. */
  function HourRecords(base: Date, name: string, fuel: string, hours: seq<int>,
                       outputs: map<int, real>, capabilities: map<int, real>): seq<Record>
  {
    if hours == [] then []
    else
      var rest := HourRecords(base, name, fuel, hours[1..], outputs, capabilities);
      match HourStart(base, hours[0])
      case None => rest
      case Some(ts) => [GeneratorOutput(ts, name, fuel, ValueOr(outputs, hours[0]), ValueOr(capabilities, hours[0]))] + rest
  }

  /** The hours of the union of both dictionaries' keys, ascending. */
  ghost function MergedHours(outputs: map<int, real>, capabilities: map<int, real>): seq<int> {
    Ascending(outputs.Keys + capabilities.Keys)
  }

  /** The records of one generator: none without a name. */
  ghost function GeneratorRecords(base: Date, g: Generator): seq<Record> {
    if !Present(g.name) then []
    else
      var outputs := ByHour(g.outputs);
      var capabilities := ByHour(g.capabilities);
      HourRecords(base, g.name.value, FuelLabel(g.fuelType), MergedHours(outputs, capabilities), outputs, capabilities)
  }

  ghost function GeneratorsRecords(base: Date, gens: seq<Generator>): seq<Record> {
    if gens == [] then [] else GeneratorRecords(base, gens[0]) + GeneratorsRecords(base, gens[1..])
  }

  /** The records of a document: none without an IMODocBody or a usable Date. */
  ghost function GeneratorOutputOf(doc: GeneratorDoc): seq<Record> {
    match BodyDate(doc.body)
    case None => []
    case Some(base) => GeneratorsRecords(base, doc.generators)
  }

  /** The `for hour in sorted(all_hours)` loop of one generator. */
  method AppendHours(base: Date, name: string, fuel: string, hours: seq<int>,
                     outputs: map<int, real>, capabilities: map<int, real>, records0: seq<Record>)
    returns (records: seq<Record>)
    ensures records == records0 + HourRecords(base, name, fuel, hours, outputs, capabilities)
  {
    records := records0;
    assert hours[0..] == hours;
    for i := 0 to |hours|
      invariant records + HourRecords(base, name, fuel, hours[i..], outputs, capabilities)
                == records0 + HourRecords(base, name, fuel, hours, outputs, capabilities)
    {
      assert hours[i..][1..] == hours[i + 1..];
      var h := hours[i];
      var ts := HourStart(base, h);
      if ts.Some? {
        records := records + [GeneratorOutput(ts.value, name, fuel, ValueOr(outputs, h), ValueOr(capabilities, h))];
      }
    }
    assert records + [] == records;
  }

  /** The body of the generator loop: skip a nameless generator, fill both dictionaries, then
      emit the merged hours. */
  method AppendGenerator(base: Date, g: Generator, records0: seq<Record>) returns (records: seq<Record>)
    ensures records == records0 + GeneratorRecords(base, g)
  {
    if !Present(g.name) {
      return records0 + [];
    }
    var outputs := CollectByHour(g.outputs);
    var capabilities := CollectByHour(g.capabilities);
    var hours := Sorted(outputs.Keys + capabilities.Keys);
    records := AppendHours(base, g.name.value, FuelLabel(g.fuelType), hours, outputs, capabilities, records0);
  }

  /** The generator loop of `fetch_generator_output`. */
  method AppendGenerators(base: Date, gens: seq<Generator>) returns (records: seq<Record>)
    ensures records == GeneratorsRecords(base, gens)
  {
    records := [];
    assert gens[0..] == gens;
    for i := 0 to |gens|
      invariant records + GeneratorsRecords(base, gens[i..]) == GeneratorsRecords(base, gens)
    {
      assert gens[i..][1..] == gens[i + 1..];
      ghost var rest := GeneratorsRecords(base, gens[i + 1..]);
      ghost var here := GeneratorRecords(base, gens[i]);
      assert GeneratorsRecords(base, gens[i..]) == here + rest;
      ghost var before := records;
      records := AppendGenerator(base, gens[i], records);
      AppendAssoc(before, here, rest);
    }
    assert records + [] == records;
  }

  /** `fetch_generator_output` once the document is decoded. */
  method ExtractGenerators(doc: GeneratorDoc) returns (records: seq<Record>)
    ensures records == GeneratorOutputOf(doc)
  {
    records := [];
    var base := BodyDate(doc.body);
    if base.None? {
      return;
    }
    records := AppendGenerators(base.value, doc.generators);
  }

  /** The hours of `hours` that are hour-ending numbers of a day, 1..24, in order. */
  function DayHours(hours: seq<int>): seq<int> {
    if hours == [] then []
    else (if 1 <= hours[0] <= 24 then [hours[0]] else []) + DayHours(hours[1..])
  }

  /** Filtering keeps exactly the hours 1..24 of the list. */
  lemma {:induction false} DayHoursMembers(hours: seq<int>)
    ensures forall h :: h in DayHours(hours) <==> h in hours && 1 <= h <= 24
  {
    if hours != [] {
      DayHoursMembers(hours[1..]);
      assert hours == [hours[0]] + hours[1..];
    }
  }

  /** Filtering keeps an increasing list increasing. */
  lemma {:induction false} DayHoursIncreasing(hours: seq<int>)
    requires StrictlyIncreasing(hours)
    ensures StrictlyIncreasing(DayHours(hours))
  {
    if hours != [] {
      assert StrictlyIncreasing(hours[1..]);
      DayHoursIncreasing(hours[1..]);
      DayHoursMembers(hours[1..]);
      var rest := DayHours(hours[1..]);
      if 1 <= hours[0] <= 24 {
        var r := [hours[0]] + rest;
        assert DayHours(hours) == r;
        forall i, j | 0 <= i < j < |r| ensures r[i] < r[j] {
          assert r[j] == rest[j - 1];
          if i > 0 {
            assert r[i] == rest[i - 1];
          } else {
            assert r[j] in rest;
            assert r[j] in hours[1..];
            var k :| 0 <= k < |hours[1..]| && hours[1..][k] == r[j];
            assert hours[k + 1] == r[j];
          }
        }
      }
    }
  }

  /** `r` is the record of hour `h`: stamped at the start of that hour, with the dictionaries'
      values or 0.0. */
  predicate IsHourRecord(r: Record, base: Date, name: string, fuel: string, h: int,
                         outputs: map<int, real>, capabilities: map<int, real>)
  {
    && HourStart(base, h) == Some(r.timestamp)
    && r == GeneratorOutput(r.timestamp, name, fuel, ValueOr(outputs, h), ValueOr(capabilities, h))
  }

  /** One record per hour 1..24 of the list, in the list's order. */
  lemma {:induction false} HourRecordsSpec(base: Date, name: string, fuel: string, hours: seq<int>,
                                          outputs: map<int, real>, capabilities: map<int, real>)
    ensures var rs := HourRecords(base, name, fuel, hours, outputs, capabilities);
            var hs := DayHours(hours);
      && |rs| == |hs|
      && forall i :: 0 <= i < |rs| ==> IsHourRecord(rs[i], base, name, fuel, hs[i], outputs, capabilities)
  {
    if hours != [] {
      HourRecordsSpec(base, name, fuel, hours[1..], outputs, capabilities);
      var rest := HourRecords(base, name, fuel, hours[1..], outputs, capabilities);
      var hrest := DayHours(hours[1..]);
      var h := hours[0];
      var ts := HourStart(base, h);
      if ts.Some? {
        var rec := GeneratorOutput(ts.value, name, fuel, ValueOr(outputs, h), ValueOr(capabilities, h));
        assert IsHourRecord(rec, base, name, fuel, h, outputs, capabilities);
        var rs := [rec] + rest;
        var hs := [h] + hrest;
        assert HourRecords(base, name, fuel, hours, outputs, capabilities) == rs;
        assert DayHours(hours) == hs;
        forall i | 0 <= i < |rs| ensures IsHourRecord(rs[i], base, name, fuel, hs[i], outputs, capabilities) {
          if i > 0 {
            assert rs[i] == rest[i - 1] && hs[i] == hrest[i - 1];
          }
        }
      } else {
        assert HourRecords(base, name, fuel, hours, outputs, capabilities) == rest;
        assert DayHours(hours) == hrest;
      }
    }
  }

  /** A named generator yields exactly one record for each hour 1..24 that its Output or
      Capability entries mention, in ascending hour order. */
  lemma GeneratorRecordsSpec(base: Date, g: Generator)
    requires Present(g.name)
    ensures var outputs := ByHour(g.outputs);
            var capabilities := ByHour(g.capabilities);
            var hs := DayHours(MergedHours(outputs, capabilities));
            var rs := GeneratorRecords(base, g);
      && StrictlyIncreasing(hs)
      && (forall h :: h in hs <==> (h in outputs || h in capabilities) && 1 <= h <= 24)
      && |rs| == |hs|
      && forall i :: 0 <= i < |rs| ==>
           IsHourRecord(rs[i], base, g.name.value, FuelLabel(g.fuelType), hs[i], outputs, capabilities)
  {
    var outputs := ByHour(g.outputs);
    var capabilities := ByHour(g.capabilities);
    AscendingSpec(outputs.Keys + capabilities.Keys);
    DayHoursMembers(MergedHours(outputs, capabilities));
    DayHoursIncreasing(MergedHours(outputs, capabilities));
    HourRecordsSpec(base, g.name.value, FuelLabel(g.fuelType), MergedHours(outputs, capabilities), outputs, capabilities);
  }
}
