/** The dated Adequacy3 reports: hourly Ontario demand and supply forecasts, merged by hour, for
    today and, from 13:00 on, for tomorrow. */
module Adequacy {
  import opened Wrappers
  import opened Text
  import opened Calendar
  import opened Clock
  import opened Records
  import opened Merge
  import opened Ordering
  import opened Retry

  /** A decoded Adequacy3 document: its DocBody, if any, its ForecastOntDemand/Demand entries
      (DeliveryHour, EnergyMW) and its Energies/Energy entries (DeliveryHour, EnergyMWhr). */
  datatype AdequacyDoc = AdequacyDoc(body: Option<DeliveryBody>, demands: seq<HourlyEntry>, supplies: seq<HourlyEntry>)

  /** The URL of the report of the day spelled `dateCompact` (YYYYMMDD). */
  function ReportUrl(dateCompact: string): string {
    IesoBaseUrl + "/Adequacy3/PUB_Adequacy3_" + dateCompact + ".xml"
  }

  /** One row per listed hour, each stamped `now`, with the forecasts of that hour or 0.0. */
  function HourRows(now: DateTime, deliveryDate: string, hours: seq<int>,
                    demand: map<int, real>, supply: map<int, real>): seq<Record>
  {
    if hours == [] then []
    else [Adequacy(now, deliveryDate, hours[0], ValueOr(demand, hours[0]), ValueOr(supply, hours[0]))]
         + HourRows(now, deliveryDate, hours[1..], demand, supply)
  }

  /** The records of a fetched document: none without a DocBody or a DeliveryDate. */
  ghost function AdequacyOf(now: DateTime, doc: AdequacyDoc): seq<Record> {
    if doc.body.None? || !Present(doc.body.value.deliveryDate) then []
    else
      var demand := ByHour(doc.demands);
      var supply := ByHour(doc.supplies);
      HourRows(now, doc.body.value.deliveryDate.value, Ascending(demand.Keys + supply.Keys), demand, supply)
  }

  /** What `_fetch_single_adequacy_report` returns for the day spelled `dateCompact`, where
      `server(url, k)` is the outcome of the k-th request for `url`. */
  ghost function SingleReport(now: DateTime, server: (string, nat) -> Attempt<AdequacyDoc>, dateCompact: string): seq<Record> {
    var run := RunFrom(AttemptsAt(server, ReportUrl(dateCompact)), true, 0);
    if run.root.None? then [] else AdequacyOf(now, run.root.value)
  }

  /** The `for hour in sorted(all_hours)` loop. */
  method AppendRows(now: DateTime, deliveryDate: string, hours: seq<int>,
                    demand: map<int, real>, supply: map<int, real>) returns (records: seq<Record>)
    ensures records == HourRows(now, deliveryDate, hours, demand, supply)
  {
    records := [];
    assert hours[0..] == hours;
    for i := 0 to |hours|
      invariant records + HourRows(now, deliveryDate, hours[i..], demand, supply)
                == HourRows(now, deliveryDate, hours, demand, supply)
    {
      assert hours[i..][1..] == hours[i + 1..];
      var h := hours[i];
      records := records + [Adequacy(now, deliveryDate, h, ValueOr(demand, h), ValueOr(supply, h))];
    }
    assert records + [] == records;
  }

  /** The part of `_fetch_single_adequacy_report` after the retry loop. */
  method ParseAdequacy(now: DateTime, doc: AdequacyDoc) returns (records: seq<Record>)
    ensures records == AdequacyOf(now, doc)
  {
    if doc.body.None? || !Present(doc.body.value.deliveryDate) {
      return [];
    }
    var demand := CollectByHour(doc.demands);
    var supply := CollectByHour(doc.supplies);
    var hours := Sorted(demand.Keys + supply.Keys);
    records := AppendRows(now, doc.body.value.deliveryDate.value, hours, demand, supply);
  }

  /** `_fetch_single_adequacy_report`: the retry loop with a 404 ending it at once, then the
      parse. */
  method FetchSingleReport(now: DateTime, server: (string, nat) -> Attempt<AdequacyDoc>, dateCompact: string)
    returns (records: seq<Record>)
    ensures records == SingleReport(now, server, dateCompact)
  {
    var root, calls, sleeps := FetchWithRetry(AttemptsAt(server, ReportUrl(dateCompact)), true);
    if root.None? {
      return [];
    }
    records := ParseAdequacy(now, root.value);
  }

  /** The days `fetch_adequacy` asks for: today, and tomorrow once the hour is 13 or later. */
  function ReportDays(now: DateTime): (days: seq<Date>)
    requires ValidDate(now.date) && (now.hour >= 13 ==> now.date != MaxDate)
    ensures forall d :: d in days ==> ValidDate(d)
  {
    if now.hour >= 13 then [now.date, NextDay(now.date)] else [now.date]
  }

  /** `fetch_adequacy`: today's records, then tomorrow's from 13:00 on. */
  method FetchAdequacy(now: DateTime, server: (string, nat) -> Attempt<AdequacyDoc>) returns (records: seq<Record>)
    requires ValidDate(now.date) && (now.hour >= 13 ==> now.date != MaxDate)
    ensures records == SingleReport(now, server, FormatCompact(now.date))
                       + (if now.hour >= 13 then SingleReport(now, server, FormatCompact(NextDay(now.date))) else [])
  {
    records := FetchSingleReport(now, server, FormatCompact(now.date));
    if now.hour >= 13 {
      var tomorrow := FetchSingleReport(now, server, FormatCompact(NextDay(now.date)));
      records := records + tomorrow;
    }
  }

  /** One row per listed hour, in the list's order. */
  lemma {:induction false} HourRowsSpec(now: DateTime, deliveryDate: string, hours: seq<int>,
                                       demand: map<int, real>, supply: map<int, real>)
    ensures var rs := HourRows(now, deliveryDate, hours, demand, supply);
      && |rs| == |hours|
      && forall i :: 0 <= i < |rs| ==>
           rs[i] == Adequacy(now, deliveryDate, hours[i], ValueOr(demand, hours[i]), ValueOr(supply, hours[i]))
  {
    if hours != [] {
      HourRowsSpec(now, deliveryDate, hours[1..], demand, supply);
    }
  }

  /** A document with a DeliveryDate yields exactly one record per hour that a demand or a supply
      entry gives, in ascending hour order, each stamped `now`, carrying the DocBody's date and
      the hour's forecasts, a missing side being 0.0. */
  lemma AdequacySpec(now: DateTime, doc: AdequacyDoc)
    requires doc.body.Some? && Present(doc.body.value.deliveryDate)
    ensures var demand := ByHour(doc.demands);
            var supply := ByHour(doc.supplies);
            var hs := Ascending(demand.Keys + supply.Keys);
            var rs := AdequacyOf(now, doc);
      && StrictlyIncreasing(hs)
      && (forall h :: h in hs <==> h in demand || h in supply)
      && |rs| == |hs|
      && forall i :: 0 <= i < |rs| ==>
           rs[i] == Adequacy(now, doc.body.value.deliveryDate.value, hs[i], ValueOr(demand, hs[i]), ValueOr(supply, hs[i]))
  {
    var demand := ByHour(doc.demands);
    var supply := ByHour(doc.supplies);
    var hs := Ascending(demand.Keys + supply.Keys);
    var date := doc.body.value.deliveryDate.value;
    AscendingSpec(demand.Keys + supply.Keys);
    assert AdequacyOf(now, doc) == HourRows(now, date, hs, demand, supply);
    HourRowsSpec(now, date, hs, demand, supply);
  }

  /** A report contributes records only when some request delivered its document after nothing
      but timeouts and HTTP errors: a 404, an unexpected error or three failures give nothing. */
  lemma SingleReportNeedsSuccess(now: DateTime, server: (string, nat) -> Attempt<AdequacyDoc>, dateCompact: string)
    requires SingleReport(now, server, dateCompact) != []
    ensures exists k, doc :: SucceedsAt(AttemptsAt(server, ReportUrl(dateCompact)), true, 0, k, doc)
  {
    var attempts := AttemptsAt(server, ReportUrl(dateCompact));
    var doc := RunFrom(attempts, true, 0).root.value;
    RunSucceeds(attempts, true, 0, doc);
  }

  /** Today and tomorrow are consecutive days with distinct report URLs. */
  lemma ReportDaysSpec(now: DateTime)
    requires ValidDate(now.date) && (now.hour >= 13 ==> now.date != MaxDate)
    ensures ReportDays(now)[0] == now.date
    ensures |ReportDays(now)| == 2 <==> now.hour >= 13
    ensures now.hour >= 13 ==>
              && Before(now.date, ReportDays(now)[1])
              && ReportUrl(FormatCompact(ReportDays(now)[0])) != ReportUrl(FormatCompact(ReportDays(now)[1]))
  {
    if now.hour >= 13 {
      var tomorrow := NextDay(now.date);
      if ReportUrl(FormatCompact(now.date)) == ReportUrl(FormatCompact(tomorrow)) {
        var prefix := IesoBaseUrl + "/Adequacy3/PUB_Adequacy3_";
        assert FormatCompact(now.date) == ReportUrl(FormatCompact(now.date))[|prefix|..|prefix| + 8];
        assert FormatCompact(tomorrow) == ReportUrl(FormatCompact(tomorrow))[|prefix|..|prefix| + 8];
        FormatCompactInjective(now.date, tomorrow);
      }
    }
  }

  /** A 404 on the first request ends the fetch at once, with no records and no retry. */
  lemma NotFoundEnds(now: DateTime, server: (string, nat) -> Attempt<AdequacyDoc>, dateCompact: string)
    requires server(ReportUrl(dateCompact), 0) == NotFound
    ensures SingleReport(now, server, dateCompact) == []
    ensures RunFrom(AttemptsAt(server, ReportUrl(dateCompact)), true, 0).calls == 1
  {
  }
}
