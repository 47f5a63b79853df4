/** The IntertieScheduleFlow report: per intertie zone, the hourly import and export schedules
    and the 5-minute actual flows of one day, joined into one record per actual interval. */
module IntertieFlows {
  import opened Wrappers
  import opened Text
  import opened Numbers
  import opened Calendar
  import opened Clock
  import opened Records
  import opened Merge
  import opened Ordering

  /** A Schedule element: its Hour, Import and Export texts. */
  datatype Schedule = Schedule(hour: Option<string>, importMw: Option<string>, exportMw: Option<string>)
  /** An Actual element: its Hour, Interval and Flow texts. */
  datatype Actual = Actual(hour: Option<string>, interval: Option<string>, flow: Option<string>)
  datatype IntertieZone = IntertieZone(name: Option<string>, schedules: seq<Schedule>, actuals: seq<Actual>)
  /** A decoded IntertieScheduleFlow document: its IMODocBody, if any, and its zones. */
  datatype IntertieDoc = IntertieDoc(body: Option<ImoDocBody>, zones: seq<IntertieZone>)

  /** The `schedules_by_hour[int(hour)] = imp - exp` write a schedule makes: none without an
      hour, or when a present text does not parse; a missing import or export counts as 0.0. */
  function ScheduleReading(s: Schedule): Option<(int, real)> {
    if !Present(s.hour) then None
    else
      match (ParseInt(s.hour.value), ValueOrZero(s.importMw), ValueOrZero(s.exportMw))
      case (Some(h), Some(imp), Some(exp)) => Some((h, imp - exp))
      case _ => None
  }

  /** The `actuals[(int(hour), int(interval))] = float(flow)` write an actual makes: none unless
      all three texts are present and parse. */
  function ActualReading(a: Actual): Option<((int, int), real)> {
    if Present(a.hour) && Present(a.interval) && Present(a.flow) then
      match (ParseInt(a.hour.value), ParseInt(a.interval.value), ParseNum(a.flow.value))
      case (Some(h), Some(i), Some(f)) => Some(((h, i), f))
      case _ => None
    else None
  }

  function ScheduleReadings(ss: seq<Schedule>): (rs: seq<Option<(int, real)>>)
    ensures |rs| == |ss|
  {
    seq(|ss|, i requires 0 <= i < |ss| => ScheduleReading(ss[i]))
  }

  function ActualReadings(as_: seq<Actual>): (rs: seq<Option<((int, int), real)>>)
    ensures |rs| == |as_|
  {
    seq(|as_|, i requires 0 <= i < |as_| => ActualReading(as_[i]))
  }

  /** The net schedule by hour. */
  function NetSchedules(ss: seq<Schedule>): map<int, real> {
    LastWins(ScheduleReadings(ss))
  }

  /** The actual flow by (hour, interval). */
  function Flows(as_: seq<Actual>): map<(int, int), real> {
    LastWins(ActualReadings(as_))
  }

  /** The records of the listed (hour, interval) keys, in order; a key whose interval does not
      start within the day makes `replace` raise and is skipped. */
  function FlowRecords(base: Date, name: string, keys: seq<(int, int)>,
                       schedules: map<int, real>, flows: map<(int, int), real>): seq<Record>
  {
    if keys == [] then []
    else
      var rest := FlowRecords(base, name, keys[1..], schedules, flows);
      var k := keys[0];
      match IntervalStart(base, k.0, k.1)
      case None => rest
      case Some(ts) => [IntertieFlow(ts, name, ValueOr(schedules, k.0), ValueOr(flows, k))] + rest
  }

  /** The records of one zone: none without a name. */
  ghost function ZoneRecords(base: Date, z: IntertieZone): seq<Record> {
    if !Present(z.name) then []
    else
      var flows := Flows(z.actuals);
      FlowRecords(base, z.name.value, AscendingPairs(flows.Keys), NetSchedules(z.schedules), flows)
  }

  ghost function ZonesRecords(base: Date, zs: seq<IntertieZone>): seq<Record> {
    if zs == [] then [] else ZoneRecords(base, zs[0]) + ZonesRecords(base, zs[1..])
  }

  /** The records of a document: none without an IMODocBody or a usable Date. */
  ghost function IntertieFlowOf(doc: IntertieDoc): seq<Record> {
    match BodyDate(doc.body)
    case None => []
    case Some(base) => ZonesRecords(base, doc.zones)
  }

  /** The schedule loop of one zone. */
  method CollectSchedules(ss: seq<Schedule>) returns (m: map<int, real>)
    ensures m == NetSchedules(ss)
  {
    m := map[];
    for i := 0 to |ss|
      invariant m == LastWins(ScheduleReadings(ss[..i]))
    {
      assert ScheduleReadings(ss[..i + 1]) == ScheduleReadings(ss[..i]) + [ScheduleReading(ss[i])];
      LastWinsSnoc(ScheduleReadings(ss[..i]), ScheduleReading(ss[i]));
      var r := ScheduleReading(ss[i]);
      if r.Some? {
        m := m[r.value.0 := r.value.1];
      }
    }
    assert ss[..|ss|] == ss;
  }

  /** The actual loop of one zone. */
  method CollectFlows(as_: seq<Actual>) returns (m: map<(int, int), real>)
    ensures m == Flows(as_)
  {
    m := map[];
    for i := 0 to |as_|
      invariant m == LastWins(ActualReadings(as_[..i]))
    {
      assert ActualReadings(as_[..i + 1]) == ActualReadings(as_[..i]) + [ActualReading(as_[i])];
      LastWinsSnoc(ActualReadings(as_[..i]), ActualReading(as_[i]));
      var r := ActualReading(as_[i]);
      if r.Some? {
        m := m[r.value.0 := r.value.1];
      }
    }
    assert as_[..|as_|] == as_;
  }

  /** The `for (hour, interval), actual_flow in sorted(actuals.items())` loop. */
  method AppendFlows(base: Date, name: string, keys: seq<(int, int)>,
                     schedules: map<int, real>, flows: map<(int, int), real>, records0: seq<Record>)
    returns (records: seq<Record>)
    ensures records == records0 + FlowRecords(base, name, keys, schedules, flows)
  {
    records := records0;
    assert keys[0..] == keys;
    for i := 0 to |keys|
      invariant records + FlowRecords(base, name, keys[i..], schedules, flows)
                == records0 + FlowRecords(base, name, keys, schedules, flows)
    {
      assert keys[i..][1..] == keys[i + 1..];
      var k := keys[i];
      var ts := IntervalStart(base, k.0, k.1);
      if ts.Some? {
        records := records + [IntertieFlow(ts.value, name, ValueOr(schedules, k.0), ValueOr(flows, k))];
      }
    }
    assert records + [] == records;
  }

  /** The body of the zone loop. */
  method AppendZone(base: Date, z: IntertieZone, records0: seq<Record>) returns (records: seq<Record>)
    ensures records == records0 + ZoneRecords(base, z)
  {
    if !Present(z.name) {
      return records0 + [];
    }
    var schedules := CollectSchedules(z.schedules);
    var flows := CollectFlows(z.actuals);
    var keys := SortedPairs(flows.Keys);
    records := AppendFlows(base, z.name.value, keys, schedules, flows, records0);
  }

  method AppendZones(base: Date, zs: seq<IntertieZone>) returns (records: seq<Record>)
    ensures records == ZonesRecords(base, zs)
  {
    records := [];
    assert zs[0..] == zs;
    for i := 0 to |zs|
      invariant records + ZonesRecords(base, zs[i..]) == ZonesRecords(base, zs)
    {
      assert zs[i..][1..] == zs[i + 1..];
      ghost var rest := ZonesRecords(base, zs[i + 1..]);
      ghost var here := ZoneRecords(base, zs[i]);
      assert ZonesRecords(base, zs[i..]) == here + rest;
      ghost var before := records;
      records := AppendZone(base, zs[i], records);
      AppendAssoc(before, here, rest);
    }
    assert records + [] == records;
  }

  /** `fetch_intertie_flow` once the document is decoded. */
  method ExtractIntertieFlow(doc: IntertieDoc) returns (records: seq<Record>)
    ensures records == IntertieFlowOf(doc)
  {
    records := [];
    var base := BodyDate(doc.body);
    if base.None? {
      return;
    }
    records := AppendZones(base.value, doc.zones);
  }

  /** A schedule writes exactly when its hour is present and parses and its present import and
      export parse; it writes import minus export, a missing side counting as 0.0. */
  lemma ScheduleReadingSpec(s: Schedule)
    ensures ScheduleReading(s).Some? <==>
              && Present(s.hour) && ParseInt(s.hour.value).Some?
              && (Present(s.importMw) ==> ParseNum(s.importMw.value).Some?)
              && (Present(s.exportMw) ==> ParseNum(s.exportMw.value).Some?)
    ensures ScheduleReading(s).Some? ==>
              && ScheduleReading(s).value.0 == ParseInt(s.hour.value).value
              && ScheduleReading(s).value.1 == ValueOrZero(s.importMw).value - ValueOrZero(s.exportMw).value
  {
  }

  /** An actual writes exactly when its three texts are present and parse. */
  lemma ActualReadingSpec(a: Actual)
    ensures ActualReading(a).Some? <==>
              && Present(a.hour) && Present(a.interval) && Present(a.flow)
              && ParseInt(a.hour.value).Some? && ParseInt(a.interval.value).Some? && ParseNum(a.flow.value).Some?
    ensures ActualReading(a).Some? ==>
              ActualReading(a).value == ((ParseInt(a.hour.value).value, ParseInt(a.interval.value).value),
                                         ParseNum(a.flow.value).value)
  {
  }

  /** A key has an actual flow exactly when some Actual element writes it. */
  lemma FlowsKeys(as_: seq<Actual>, k: (int, int))
    ensures k in Flows(as_) <==> exists i :: 0 <= i < |as_| && ActualReading(as_[i]).Some? && ActualReading(as_[i]).value.0 == k
  {
    var rs := ActualReadings(as_);
    LastWinsKeys(rs, k);
    if k in Flows(as_) {
      var i :| 0 <= i < |rs| && rs[i].Some? && rs[i].value.0 == k;
      assert ActualReading(as_[i]).Some? && ActualReading(as_[i]).value.0 == k;
    }
    forall i | 0 <= i < |as_| && ActualReading(as_[i]).Some? && ActualReading(as_[i]).value.0 == k
      ensures k in Flows(as_)
    {
      assert rs[i] == ActualReading(as_[i]);
    }
  }

  /** The keys of `keys` that name an interval 1..12 of an hour 1..24, in order. */
  function DayIntervals(keys: seq<(int, int)>): seq<(int, int)> {
    if keys == [] then []
    else (if 1 <= keys[0].0 <= 24 && 1 <= keys[0].1 <= 12 then [keys[0]] else []) + DayIntervals(keys[1..])
  }

  lemma {:induction false} DayIntervalsMembers(keys: seq<(int, int)>)
    ensures forall k :: k in DayIntervals(keys) <==> k in keys && 1 <= k.0 <= 24 && 1 <= k.1 <= 12
  {
    if keys != [] {
      DayIntervalsMembers(keys[1..]);
      assert keys == [keys[0]] + keys[1..];
    }
  }

  lemma {:induction false} DayIntervalsIncreasing(keys: seq<(int, int)>)
    requires PairsIncreasing(keys)
    ensures PairsIncreasing(DayIntervals(keys))
  {
    if keys != [] {
      assert PairsIncreasing(keys[1..]);
      DayIntervalsIncreasing(keys[1..]);
      DayIntervalsMembers(keys[1..]);
      var rest := DayIntervals(keys[1..]);
      if 1 <= keys[0].0 <= 24 && 1 <= keys[0].1 <= 12 {
        var r := [keys[0]] + rest;
        assert DayIntervals(keys) == r;
        forall i, j | 0 <= i < j < |r| ensures PairLess(r[i], r[j]) {
          assert r[j] == rest[j - 1];
          if i > 0 {
            assert r[i] == rest[i - 1];
          } else {
            assert r[j] in rest;
            assert r[j] in keys[1..];
            var k :| 0 <= k < |keys[1..]| && keys[1..][k] == r[j];
            assert keys[k + 1] == r[j];
          }
        }
      }
    }
  }

  /** `r` is the record of key `k`: stamped at the start of that interval, with the hour's net
      schedule (0.0 when absent) and the interval's actual flow. */
  predicate IsFlowRecord(r: Record, base: Date, name: string, k: (int, int),
                         schedules: map<int, real>, flows: map<(int, int), real>)
  {
    && IntervalStart(base, k.0, k.1) == Some(r.timestamp)
    && k in flows
    && r == IntertieFlow(r.timestamp, name, ValueOr(schedules, k.0), flows[k])
  }

  /** One record per key of the list that names an interval of the day, in the list's order. */
  lemma {:induction false} FlowRecordsSpec(base: Date, name: string, keys: seq<(int, int)>,
                                          schedules: map<int, real>, flows: map<(int, int), real>)
    requires forall k :: k in keys ==> k in flows
    ensures var rs := FlowRecords(base, name, keys, schedules, flows);
            var ks := DayIntervals(keys);
      && |rs| == |ks|
      && forall i :: 0 <= i < |rs| ==> IsFlowRecord(rs[i], base, name, ks[i], schedules, flows)
  {
    if keys != [] {
      assert forall k :: k in keys[1..] ==> k in keys;
      FlowRecordsSpec(base, name, keys[1..], schedules, flows);
      var rest := FlowRecords(base, name, keys[1..], schedules, flows);
      var krest := DayIntervals(keys[1..]);
      var k := keys[0];
      var ts := IntervalStart(base, k.0, k.1);
      if ts.Some? {
        var rec := IntertieFlow(ts.value, name, ValueOr(schedules, k.0), ValueOr(flows, k));
        assert k in flows;
        assert IsFlowRecord(rec, base, name, k, schedules, flows);
        var rs := [rec] + rest;
        var ks := [k] + krest;
        assert FlowRecords(base, name, keys, schedules, flows) == rs;
        assert DayIntervals(keys) == ks;
        forall i | 0 <= i < |rs| ensures IsFlowRecord(rs[i], base, name, ks[i], schedules, flows) {
          if i > 0 {
            assert rs[i] == rest[i - 1] && ks[i] == krest[i - 1];
          }
        }
      } else {
        assert FlowRecords(base, name, keys, schedules, flows) == rest;
        assert DayIntervals(keys) == krest;
      }
    }
  }

  /** A named zone yields exactly one record per actual (hour, interval) key that names an
      interval of the day, in ascending (hour, interval) order, each carrying that interval's
      flow and its hour's net schedule. */
  lemma ZoneRecordsSpec(base: Date, z: IntertieZone)
    requires Present(z.name)
    ensures var flows := Flows(z.actuals);
            var schedules := NetSchedules(z.schedules);
            var ks := DayIntervals(AscendingPairs(flows.Keys));
            var rs := ZoneRecords(base, z);
      && PairsIncreasing(ks)
      && (forall k :: k in ks <==> k in flows && 1 <= k.0 <= 24 && 1 <= k.1 <= 12)
      && |rs| == |ks|
      && forall i :: 0 <= i < |rs| ==> IsFlowRecord(rs[i], base, z.name.value, ks[i], schedules, flows)
  {
    var flows := Flows(z.actuals);
    var keys := AscendingPairs(flows.Keys);
    AscendingPairsSpec(flows.Keys);
    DayIntervalsMembers(keys);
    DayIntervalsIncreasing(keys);
    FlowRecordsSpec(base, z.name.value, keys, NetSchedules(z.schedules), flows);
  }
}
