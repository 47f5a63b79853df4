/** The RealtimeDemandZonal CSV report: five-minute demand for each of Ontario's ten zones. */
module ZonalDemand {
  import opened Wrappers
  import opened Text
  import opened Numbers
  import opened Calendar
  import opened Clock
  import opened Records

  /** A row of the CSV file, split into its fields. */
  type Row = seq<string>

  /** Metadata rows at the head of the file, skipped unread. */
  const HeaderRows := 4
  /** Rows with fewer fields than this are skipped. */
  const MinFields := 14

  /** A demand zone and the column of a row that holds its demand. */
  datatype Zone = Zone(name: string, column: nat)

  /** The ten demand zones, in the order records are emitted. */
  const Zones: seq<Zone> := [
    Zone("NORTHWEST", 4), Zone("NORTHEAST", 5), Zone("OTTAWA", 6), Zone("EAST", 7), Zone("TORONTO", 8),
    Zone("ESSA", 9), Zone("BRUCE", 10), Zone("SOUTHWEST", 11), Zone("NIAGARA", 12), Zone("WEST", 13)
  ]

  /** The rows read after the metadata rows; a file shorter than that has none. */
  function DataRows(rows: seq<Row>): seq<Row> {
    if |rows| <= HeaderRows then [] else rows[HeaderRows..]
  }

  /** The interval a row describes: date, hour ending (1..24) and five-minute interval (1..12),
      each read after stripping blanks; none when any of them fails. */
  function RowStamp(row: Row): Option<DateTime>
    requires |row| >= 3
  {
    match (ParseInt(Strip(row[1])), ParseInt(Strip(row[2])), ParseIsoDate(Strip(row[0])))
    case (Some(hour), Some(interval), Some(date)) => IntervalStart(date, hour, interval)
    case _ => None
  }

  /** A demand cell: blank means zero, otherwise the stripped text must parse. */
  function CellDemand(cell: string): Option<real> {
    var c := Strip(cell);
    if c == [] then Some(0.0) else ParseNum(c)
  }

  /** The record of one zone column; none when the cell is missing or does not parse. */
  function ZoneRecord(ts: DateTime, row: Row, zone: Zone): Option<Record> {
    if zone.column >= |row| then None
    else
      match CellDemand(row[zone.column])
      case None => None
      case Some(v) => Some(Demand(ts, zone.name, v))
  }

  function ZoneRecords(ts: DateTime, row: Row, zones: seq<Zone>): seq<Record> {
    if zones == [] then [] else Keep(ZoneRecord(ts, row, zones[0])) + ZoneRecords(ts, row, zones[1..])
  }

  /** The records of one data row: none for a short row or one without a valid interval. */
  function RowRecords(row: Row): seq<Record> {
    if |row| < MinFields then []
    else
      match RowStamp(row)
      case None => []
      case Some(ts) => ZoneRecords(ts, row, Zones)
  }

  function RowsRecords(rows: seq<Row>): seq<Record> {
    if rows == [] then [] else RowRecords(rows[0]) + RowsRecords(rows[1..])
  }

  /** The records of the whole file. */
  function ZonalDemandOf(rows: seq<Row>): seq<Record> {
    RowsRecords(DataRows(rows))
  }

  /** The zone loop of one row, over `zones` (the caller passes `Zones`). */
  method AppendZones(ts: DateTime, row: Row, zones: seq<Zone>, records0: seq<Record>) returns (records: seq<Record>)
    ensures records == records0 + ZoneRecords(ts, row, zones)
  {
    records := records0;
    assert zones[0..] == zones;
    for i := 0 to |zones|
      invariant records + ZoneRecords(ts, row, zones[i..]) == records0 + ZoneRecords(ts, row, zones)
    {
      assert zones[i..][1..] == zones[i + 1..];
      var r := ZoneRecord(ts, row, zones[i]);
      if r.Some? {
        records := records + [r.value];
      }
    }
    assert records + [] == records;
  }

  /** The body of the row loop: the length check, the interval and the zone loop. */
  method AppendRow(row: Row, records0: seq<Record>) returns (records: seq<Record>)
    ensures records == records0 + RowRecords(row)
  {
    records := records0;
    if |row| >= MinFields {
      var ts := RowStamp(row);
      if ts.Some? {
        records := AppendZones(ts.value, row, Zones, records);
      }
    }
  }

  /** `fetch_zonal_demand` once the body is split into rows. */
  method ExtractZonalDemand(rows: seq<Row>) returns (records: seq<Record>)
    ensures records == ZonalDemandOf(rows)
  {
    records := [];
    var data := DataRows(rows);
    assert data[0..] == data;
    for i := 0 to |data|
      invariant records + RowsRecords(data[i..]) == RowsRecords(data)
    {
      assert data[i..][1..] == data[i + 1..];
      ghost var before := records;
      records := AppendRow(data[i], records);
      AppendAssoc(before, RowRecords(data[i]), RowsRecords(data[i + 1..]));
    }
    assert records + [] == records;
  }

  /** The metadata rows never contribute: whatever they hold, the records are the same. */
  lemma HeaderIgnored(header1: seq<Row>, header2: seq<Row>, body: seq<Row>)
    requires |header1| == HeaderRows && |header2| == HeaderRows
    ensures ZonalDemandOf(header1 + body) == ZonalDemandOf(header2 + body)
  {
    if body != [] {
      assert DataRows(header1 + body) == body;
      assert DataRows(header2 + body) == body;
    }
  }

  /** A file of at most the metadata rows has no records. */
  lemma ShortFileEmpty(rows: seq<Row>)
    requires |rows| <= HeaderRows
    ensures ZonalDemandOf(rows) == []
  {
  }

  /** A cell holding only blanks reads as zero demand. */
  lemma BlankCellIsZero(cell: string)
    requires forall i :: 0 <= i < |cell| ==> IsSpace(cell[i])
    ensures CellDemand(cell) == Some(0.0)
  {
    StripBlank(cell);
  }

  lemma {:induction false} ZoneRecordsSpec(ts: DateTime, row: Row, zones: seq<Zone>)
    requires forall k :: 0 <= k < |zones| ==> zones[k].column < |row| && CellDemand(row[zones[k].column]).Some?
    ensures |ZoneRecords(ts, row, zones)| == |zones|
    ensures forall k :: 0 <= k < |zones| ==>
              ZoneRecords(ts, row, zones)[k] == Demand(ts, zones[k].name, CellDemand(row[zones[k].column]).value)
  {
    if zones != [] {
      ZoneRecordsSpec(ts, row, zones[1..]);
      var rs := ZoneRecords(ts, row, zones);
      var rest := ZoneRecords(ts, row, zones[1..]);
      assert rs == [ZoneRecord(ts, row, zones[0]).value] + rest;
      forall k | 0 <= k < |zones|
        ensures rs[k] == Demand(ts, zones[k].name, CellDemand(row[zones[k].column]).value)
      {
        if k > 0 {
          assert rs[k] == rest[k - 1] && zones[k] == zones[1..][k - 1];
        }
      }
    }
  }

  /** A row with a valid interval whose ten demand cells all read yields ten records, one per
      zone in column order, all stamped with the row's interval. */
  lemma FullRowRecords(row: Row)
    requires |row| >= MinFields && RowStamp(row).Some?
    requires forall k :: 0 <= k < |Zones| ==> Zones[k].column < |row| && CellDemand(row[Zones[k].column]).Some?
    ensures |RowRecords(row)| == |Zones|
    ensures forall k :: 0 <= k < |Zones| ==>
              RowRecords(row)[k] == Demand(RowStamp(row).value, Zones[k].name, CellDemand(row[Zones[k].column]).value)
  {
    ZoneRecordsSpec(RowStamp(row).value, row, Zones);
  }

  lemma {:induction false} ZoneRecordsMembers(ts: DateTime, row: Row, zones: seq<Zone>, r: Record)
    requires r in ZoneRecords(ts, row, zones)
    ensures r.Demand? && r.timestamp == ts
    ensures exists k :: 0 <= k < |zones| && r.zone == zones[k].name && zones[k].column < |row| && CellDemand(row[zones[k].column]) == Some(r.demandMw)
  {
    if r in Keep(ZoneRecord(ts, row, zones[0])) {
      assert r.zone == zones[0].name;
    } else {
      ZoneRecordsMembers(ts, row, zones[1..], r);
      var k :| 0 <= k < |zones[1..]| && r.zone == zones[1..][k].name && zones[1..][k].column < |row| && CellDemand(row[zones[1..][k].column]) == Some(r.demandMw);
      assert zones[k + 1] == zones[1..][k];
    }
  }

  /** Every record carries the interval of its row, which lies in the row's delivery hour on the
      five-minute grid, and the demand read from one of the zone columns. */
  lemma RowRecordsShape(row: Row, r: Record)
    requires r in RowRecords(row)
    ensures |row| >= MinFields && RowStamp(row) == Some(r.timestamp)
    ensures r.Demand? && r.timestamp.second == 0 && r.timestamp.minute % 5 == 0 && 0 <= r.timestamp.hour < 24
    ensures exists k :: 0 <= k < |Zones| && r.zone == Zones[k].name && Zones[k].column < |row| && CellDemand(row[Zones[k].column]) == Some(r.demandMw)
  {
    var ts := RowStamp(row).value;
    ZoneRecordsMembers(ts, row, Zones, r);
    var hour, interval, date := ParseInt(Strip(row[1])).value, ParseInt(Strip(row[2])).value, ParseIsoDate(Strip(row[0])).value;
    IntervalStartInHour(date, hour, interval);
  }
}
