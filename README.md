# IESO report ingester: a Dafny model of its deterministic core

The producer polls the public reports of the IESO, Ontario's electricity system operator, and
publishes their contents to Kafka topics. This project models, in Dafny, what the producer does
once a report has been fetched and decoded:

- how each report family turns its element tree into records;
- the retry loop of the dated and day-ahead fetchers;
- the startup backfill from hourly archives;
- the stand-alone RealtimeTotals backfill script;
- the order of publishes in a live cycle, and which failure ends that cycle.

The model works on values, not on bytes:

- **Decoded documents** are datatypes whose text fields are `Option<string>`. A missing element
  and an empty text both count as "not present", because Python's `if not x:` treats them alike.
- **`int(...)` and `float(...)`** are partial parsers, `Numbers.ParseInt` and `Numbers.ParseNum`.
  `float` yields a `real`.
- **`datetime.replace(hour=..., minute=...)`** is `Clock.At`. It fails, as Python raises
  `ValueError`, for an hour outside 0..23 or a minute outside 0..59. So IESO hour-ending 1..24
  and interval 1..12 map to `(h-1):(i-1)*5` (`Clock.IntervalStart`).
- **Dictionaries filled entry by entry** (last write wins) are `map`s built by
  `Merge.LastWins`. `sorted(...)` over their keys is `Ordering.Ascending` and
  `Ordering.AscendingPairs`.
- **Fetch outcomes** are parameters:
  - `Retry.Attempt` (a document, a 404, a timeout, another HTTP error or an unexpected error)
    for the retried and archive fetches;
  - `Records.Live` (a document, or an exception reaching the caller) for the live cycle.
- **The Kafka producer** is the class `Publishing.Publisher`. It holds the log of batches
  published so far, and the set of topics that refuse records. A publish raises only when it
  sends a record to such a topic. An empty batch makes no produce call, so it never raises.
- **`asyncio.gather`** keeps the order of its inputs, so it is modelled as sequential evaluation.

Every parser loop is a method proved equal to a recursive specification function. The
properties the code promises are proved about those functions as lemmas: which elements yield
records, what each record carries, order, last-write-wins merging, and the union of hours.

Both `backfill_realtime_totals.py` (lines 51-121) and `main.py` (lines 120-199) define a
`fetch_hourly_archive`. The two bodies differ only in logging and in one extra
`except httpx.HTTPError` branch that also returns the lists collected so far. Both are
modelled by `Backfill.FetchHourlyArchive`.

## Model

| member | source | states |
|---|---|---|
| Text.Replace | producer/parsers/zonal_prices.py:74 | `s.replace(pat, rep)` leaves a text that does not contain the pattern unchanged |
| Text.ReplaceDropsSuffix | producer/parsers/zonal_prices.py:74 | removing ":HUB" from "NAME:HUB" gives back NAME when NAME has no ':' |
| Text.AfterLast | producer/parsers/realtime_intertie_lmp.py:37 | `split("_")[-1]` is a suffix of the name that contains no "_", and is the whole name when there is no "_" |
| Text.AfterLastOfJoin | producer/parsers/realtime_intertie_lmp.py:37 | the part after the last "_" of `prefix_suffix` is `suffix` |
| Text.StripLeft | producer/parsers/zonal_demand.py:68-70 | left-stripping keeps a suffix of the cell whose first character is not blank |
| Text.StripRight | producer/parsers/zonal_demand.py:68-70 | right-stripping keeps a prefix of the cell whose last character is not blank |
| Text.StripEnds | producer/parsers/zonal_demand.py:68-70 | neither end of a stripped cell is blank |
| Text.StripBothEnds | producer/parsers/zonal_demand.py:68-70 | `strip()` is stripping the left end, then the right end |
| Text.StripLeftDrops | producer/parsers/zonal_demand.py:68-70 | left-stripping removes blanks only |
| Text.StripRightDrops | producer/parsers/zonal_demand.py:68-70 | right-stripping removes blanks only |
| Text.StripKeeps | producer/parsers/zonal_demand.py:68-70 | every character that is not blank survives `strip()` |
| Text.StripBlank | producer/parsers/zonal_demand.py:81 | a cell of blanks strips to the empty text, which the demand rule reads as 0.0 |
| Numbers.DigitChar | producer/main.py:139 | the character written for a digit reads back as that digit |
| Numbers.NatToDecimal | producer/parsers/realtime_totals.py:75 | `str(n)` of a natural number is a non-empty string of digits |
| Numbers.NatToDecimalValue | producer/parsers/realtime_totals.py:75 | the decimal spelling of n reads back as n |
| Numbers.ParseIntRoundTrip | producer/parsers/realtime_totals.py:75 | `int(str(n)) == n` for every integer, sign included |
| Numbers.FractionValue | producer/parsers/realtime_totals.py:106 | the digits after a decimal point contribute a value in [0, 1] |
| Numbers.ParseNumOfInteger | producer/parsers/realtime_totals.py:106 | `float` of an integer's decimal text is that integer |
| Numbers.Pad2 | producer/main.py:139 | `f"{hour:02d}"` is exactly two digits |
| Numbers.Pad2Value | producer/main.py:139 | the two padded digits read back as the hour |
| Numbers.Pad2Injective | producer/main.py:139-140 | distinct hours below 100 pad to distinct texts |
| Numbers.Pad4 | producer/backfill_realtime_totals.py:129 | the `%Y` of a year below 10000 is exactly four digits |
| Numbers.Pad4Value | producer/backfill_realtime_totals.py:129 | the four year digits read back as the year |
| Numbers.DigitsPad2 | producer/backfill_realtime_totals.py:128-129 | any two digits are the padding of the number they spell |
| Numbers.DigitsPad4 | producer/backfill_realtime_totals.py:128-129 | any four digits are the padding of the number they spell |
| Calendar.DaysInMonth | producer/main.py:219 | every month has 28 to 31 days |
| Calendar.NextDay | producer/parsers/adequacy.py:188 | `now + timedelta(days=1)` is a valid date after today |
| Calendar.PrevDay | producer/main.py:219 | `now - timedelta(days=1)` is a valid date before today |
| Calendar.PrevNextInverse | producer/main.py:219 | yesterday and tomorrow undo each other |
| Calendar.NextDayIsSuccessor | producer/parsers/adequacy.py:188 | no valid date lies strictly between a day and the next one |
| Calendar.FormatIso | producer/backfill_realtime_totals.py:172 | `strftime("%Y-%m-%d")` is ten characters with dashes at positions 4 and 7 |
| Calendar.FormatCompact | producer/main.py:218 | `strftime("%Y%m%d")` is eight digits |
| Calendar.ParseIsoDate | producer/backfill_realtime_totals.py:128 | `strptime(s, "%Y-%m-%d")` accepts only texts that name a real calendar day |
| Calendar.ParseFormatIso | producer/backfill_realtime_totals.py:128 | parsing a formatted date gives the date back |
| Calendar.FormatParseIso | producer/backfill_realtime_totals.py:128 | the accepted texts are exactly the formatted dates |
| Calendar.Slice | producer/parsers/adequacy.py:55 | Python slicing clamps and never yields more than the text |
| Calendar.IsoFromCompactOfDate | producer/parsers/adequacy.py:55 | slicing a compact date 4/2/2 with dashes gives its "%Y-%m-%d" spelling |
| Calendar.CompactOfParsedIso | producer/backfill_realtime_totals.py:128-129 | the compact form of an accepted date text is that text without its two dashes |
| Calendar.FormatCompactInjective | producer/main.py:218-219 | distinct dates have distinct compact spellings |
| Clock.IntervalStart | producer/parsers/realtime_totals.py:86-91 | a timestamp exists exactly for hour 1..24 and interval 1..12, and is that date at (hour-1):(interval-1)*5 |
| Clock.HourStart | producer/parsers/generator_output.py:103 | an hour start exists exactly for hour 1..24 and is the start of its first interval |
| Clock.IntervalTime | producer/parsers/realtime_totals.py:86-95 | an interval text gives a timestamp exactly when it parses and both numbers are in range |
| Clock.IntervalStartInHour | producer/parsers/realtime_totals.py:86-92 | every interval start lies on the five-minute grid of its delivery hour |
| Clock.IntervalStartInjective | producer/parsers/zonal_prices.py:88-91 | distinct (hour, interval) pairs of one day start at distinct times |
| Clock.IntervalStartExample | producer/parsers/realtime_totals.py:87-91 | a worked example, for reading only: hour 13, interval 3 of 2026-01-26 starts at 12:10 |
| Merge.LastWinsKeys | producer/parsers/adequacy.py:119-127 | a key is in the dictionary exactly when some entry writes it |
| Merge.LastWinsValue | producer/parsers/adequacy.py:119-127 | a key holds the value of the last entry that writes it |
| Merge.HourReadingSpec | producer/parsers/adequacy.py:123-127 | an entry writes exactly when its hour and energy are present and parse, and writes the parsed pair |
| Merge.ByHourSpec | producer/parsers/generator_output.py:79-86 | an hour holds the value of the last entry that parses to that hour |
| Merge.ByHourKeys | producer/parsers/generator_output.py:79-86 | an hour has a value exactly when some entry parses to it |
| Merge.CollectByHour | producer/parsers/adequacy.py:115-127 | the fill loop builds the last-write-wins dictionary of its entries |
| Ordering.AscendingSpec | producer/parsers/adequacy.py:147 | `sorted(keys)` lists every key once, strictly increasing |
| Ordering.Sorted | producer/parsers/generator_output.py:100 | the sort yields the keys in ascending order |
| Ordering.AscendingPairsSpec | producer/parsers/intertie_flow.py:104 | sorted (hour, interval) keys are listed once each, in increasing tuple order |
| Ordering.SortedPairs | producer/parsers/intertie_flow.py:104 | the sort yields the (hour, interval) keys in ascending tuple order |
| Retry.FetchWithRetry | producer/parsers/adequacy.py:61-97 | the loop's document, request count and pauses are those of the retry run from attempt 0 |
| Retry.RunBounds | producer/parsers/adequacy.py:63-93 | from any attempt on, at most the remaining requests are made, and the k-th pause is 5*(attempt+k+1) s |
| Retry.RunPauses | producer/parsers/adequacy.py:85-92 | a run makes 1 to 3 requests and pauses 5 s then 10 s at most, only between requests |
| Retry.RunSucceeds | producer/parsers/adequacy.py:63-101 | the loop ends with a document exactly when some attempt delivers it after only timeouts and HTTP errors |
| Retry.RunExhausted | producer/parsers/da_ozp.py:89-92 | three retried failures give three requests, pauses of 5 s and 10 s, and no document |
| Records.TopicsDistinct | producer/main.py:293-352 | the seven topics are distinct; only realtime supply shares the fuel-mix topic |
| Publishing.Delivered | producer/main.py:282-363 | at most one batch per publish call reaches the log, and no batch with records for a refusing topic |
| Publishing.DeliveredWithoutFailures | producer/main.py:291-357 | when no publish raises, every batch is delivered, in order |
| Publishing.DeliveredStopsAt | producer/main.py:362-363 | a publish that raises under the outer handler ends the run: nothing after it is delivered |
| Publishing.DeliveredSkipsGuarded | producer/main.py:334-344 | a publish that raises inside its own `try` costs only its own batch |
| Publishing.CompletesDeliversAccepted | producer/main.py:334-357 | a run that completes delivers exactly the batches whose publish does not raise |
| Publishing.DeliveredAppend | producer/main.py:282-363 | two blocks run in sequence: the second delivers only if the first completes |
| Publishing.CompletesAppend | producer/main.py:282-363 | two blocks in sequence complete exactly when both do |
| Publishing.NonEmptyStepsSpec | producer/main.py:264-271 | exactly the non-empty lists are published, none inside a `try` of its own, and nothing when all are empty |
| Publishing.DeliveredNonEmptyCons | producer/main.py:264-271 | an empty list makes no call, a refused one ends the run, any other is delivered before the rest |
| Publishing.NonEmptyStepsOrdered | producer/main.py:264-271 | the publish calls keep the order of the list |
| Publishing.Publisher.constructor | producer/producers/kafka_producer.py:25-33 | a new producer has published nothing |
| Publishing.Publisher.PublishBatch | producer/producers/kafka_producer.py:64-71 | `publish_batch` succeeds exactly when the batch is empty or its topic accepts records; then the batch is appended to the log, else the log is unchanged |
| RealtimeTotals.Route | producer/parsers/realtime_totals.py:98-122 | an MQ with a parseable EnergyMW gives a demand record for "ONTARIO DEMAND" (zone ONTARIO), a supply record for "Total Energy" (REALTIME_TOTAL), and nothing otherwise |
| RealtimeTotals.QuantityRecords | producer/parsers/realtime_totals.py:98-122 | every record of an interval's MQs carries that interval's timestamp, and there is at most one per MQ |
| RealtimeTotals.IntervalRecords | producer/parsers/realtime_totals.py:81-122 | every demand record is Ontario demand and every supply record the realtime total, each at a five-minute mark of the delivery hour |
| RealtimeTotals.AppendQuantities | producer/parsers/realtime_totals.py:98-122 | the MQ loop appends exactly what the interval's MQs yield, in order |
| RealtimeTotals.ExtractTotals | producer/parsers/realtime_totals.py:61-122 | the parse returns the document's demand and supply lists: none without a DocBody or a usable date and hour |
| RealtimeTotals.ArchiveIsPrefixOfLive | producer/main.py:162-168 | the archive parse, which stops at the first bad interval, yields a prefix of the live parse, and the same lists when no interval is bad |
| RealtimeTotals.BadHourYieldsNothing | producer/parsers/realtime_totals.py:73-95 | a delivery hour outside 1..24 yields no record |
| ZonalPrices.ZoneLabelOfHub | producer/parsers/zonal_prices.py:74 | "EAST:HUB" becomes "EAST", and a name without ":HUB" is kept |
| ZonalPrices.IntervalRecordSpec | producer/parsers/zonal_prices.py:77-102 | an interval yields a record exactly when Interval and ZonalPrice are present, in range and parse, and present loss and congestion prices parse; the record carries the parsed zonal, loss and congestion prices, a missing loss or congestion price as 0.0 |
| ZonalPrices.AppendIntervals | producer/parsers/zonal_prices.py:77-102 | the interval loop appends one zone's records in document order |
| ZonalPrices.AppendZones | producer/parsers/zonal_prices.py:68-102 | the zone loop yields the records of the named zones, in document order |
| ZonalPrices.ExtractPrices | producer/parsers/zonal_prices.py:48-102 | the parse returns the document's records: none without a DocBody or a usable DELIVERYDATE/DELIVERYHOUR |
| ZonalPrices.IntervalRecordsShape | producer/parsers/zonal_prices.py:87-100 | each record of a zone is a price of that zone at a five-minute mark of the delivery hour |
| ZonalPrices.ZoneRecordsShape | producer/parsers/zonal_prices.py:68-102 | every record of a document is a zonal price at a five-minute mark of its delivery hour |
| ZonalPrices.IntervalRecordsCount | producer/parsers/zonal_prices.py:77-102 | a zone has exactly one record per complete interval |
| GeneratorOutput.AppendHours | producer/parsers/generator_output.py:99-114 | the sorted-hours loop appends the records of the hours 1..24 of the list |
| GeneratorOutput.AppendGenerator | producer/parsers/generator_output.py:67-114 | one generator's body: nothing without a name, else its merged hourly records |
| GeneratorOutput.AppendGenerators | producer/parsers/generator_output.py:67-114 | the generator loop yields every named generator's records, in document order |
| GeneratorOutput.ExtractGenerators | producer/parsers/generator_output.py:50-114 | the parse returns the document's records: none without an IMODocBody or a usable Date |
| GeneratorOutput.DayHoursMembers | producer/parsers/generator_output.py:101-114 | the hours that give records are exactly the listed hours in 1..24 |
| GeneratorOutput.DayHoursIncreasing | producer/parsers/generator_output.py:100-103 | skipping out-of-range hours keeps the ascending order |
| GeneratorOutput.HourRecordsSpec | producer/parsers/generator_output.py:100-114 | one record per listed hour in 1..24, in order, stamped (hour-1):00, with that hour's output and capability or 0.0 |
| GeneratorOutput.GeneratorRecordsSpec | producer/parsers/generator_output.py:75-114 | a named generator yields exactly one record per hour 1..24 in the union of its Output and Capability hours, ascending, with a missing side 0.0 and fuel "OTHER" by default |
| IntertieFlows.CollectSchedules | producer/parsers/intertie_flow.py:74-87 | the schedule loop builds the net schedule by hour, last entry winning |
| IntertieFlows.CollectFlows | producer/parsers/intertie_flow.py:91-101 | the actual loop builds the flow by (hour, interval), last entry winning |
| IntertieFlows.AppendFlows | producer/parsers/intertie_flow.py:104-119 | the sorted-actuals loop appends the records of the listed keys |
| IntertieFlows.AppendZone | producer/parsers/intertie_flow.py:68-119 | one zone's body: nothing without a name, else its records |
| IntertieFlows.AppendZones | producer/parsers/intertie_flow.py:68-119 | the zone loop yields every named zone's records, in document order |
| IntertieFlows.ExtractIntertieFlow | producer/parsers/intertie_flow.py:51-119 | the parse returns the document's records: none without an IMODocBody or a usable Date |
| IntertieFlows.ScheduleReadingSpec | producer/parsers/intertie_flow.py:80-87 | a schedule writes exactly when its hour parses and its present sides parse, and writes Import minus Export, a missing side counting 0.0 |
| IntertieFlows.ActualReadingSpec | producer/parsers/intertie_flow.py:97-101 | an actual writes exactly when Hour, Interval and Flow are present and parse |
| IntertieFlows.FlowsKeys | producer/parsers/intertie_flow.py:91-101 | a key has a flow exactly when some Actual writes it |
| IntertieFlows.DayIntervalsMembers | producer/parsers/intertie_flow.py:105-119 | the keys that give records are exactly the listed keys with hour 1..24 and interval 1..12 |
| IntertieFlows.DayIntervalsIncreasing | producer/parsers/intertie_flow.py:104-109 | skipping out-of-range keys keeps the ascending order |
| IntertieFlows.FlowRecordsSpec | producer/parsers/intertie_flow.py:104-119 | one record per in-range key, in order, at that interval's start, with the hour's net schedule (0.0 if none) and the interval's flow |
| IntertieFlows.ZoneRecordsSpec | producer/parsers/intertie_flow.py:68-119 | a named zone yields exactly one record per actual key of the day, ascending; hours with only a schedule give nothing |
| Adequacy.AppendRows | producer/parsers/adequacy.py:147-155 | the sorted-hours loop builds one row per listed hour |
| Adequacy.ParseAdequacy | producer/parsers/adequacy.py:104-155 | the parse returns the document's records: none without a DocBody or DeliveryDate |
| Adequacy.FetchSingleReport | producer/parsers/adequacy.py:55-161 | the fetch returns the parse of the document the retry loop (404 ending it) delivers for the day's URL, else nothing |
| Adequacy.ReportDays | producer/parsers/adequacy.py:181-191 | the days asked for are valid dates |
| Adequacy.FetchAdequacy | producer/parsers/adequacy.py:180-191 | today's records, followed by tomorrow's when the hour is 13 or later |
| Adequacy.HourRowsSpec | producer/parsers/adequacy.py:147-155 | one row per listed hour, in order, stamped `now`, with that hour's demand and supply or 0.0 |
| Adequacy.AdequacySpec | producer/parsers/adequacy.py:114-155 | exactly one record per hour in the union of demand and supply hours, ascending, all with one timestamp and the DocBody date, a missing side 0.0 |
| Adequacy.SingleReportNeedsSuccess | producer/parsers/adequacy.py:61-101 | records come only from a document delivered after nothing but timeouts and HTTP errors |
| Adequacy.ReportDaysSpec | producer/parsers/adequacy.py:181-191 | today first; tomorrow exactly when the hour is 13 or later, later than today and with a different URL |
| Adequacy.NotFoundEnds | producer/parsers/adequacy.py:71-73 | a 404 ends the fetch at once: one request, no records |
| DayAheadOzp.AppendComponents | producer/parsers/da_ozp.py:109-131 | the component loop appends each component's record, in order |
| DayAheadOzp.FetchDaOzp | producer/parsers/da_ozp.py:59-131 | the fetch returns the parse of the document the retry loop delivers (404 retried), else nothing |
| DayAheadOzp.HourPriceSpec | producer/parsers/da_ozp.py:115-131 | a record comes out exactly when PricingHour and ZonalPrice are present and parse, carrying them with the fetch time and date |
| DayAheadOzp.ComponentRecordsMembers | producer/parsers/da_ozp.py:109-131 | a record is in the output exactly when some component yields it |
| DayAheadOzp.OzpRecordsShape | producer/parsers/da_ozp.py:122-128 | every record is an ONTARIO price of the DocBody's date, stamped with the fetch time |
| DayAheadOzp.NotFoundRetried | producer/parsers/da_ozp.py:66-84 | a 404 is retried like any HTTP error: a report served on the second request is parsed |
| DayAheadZonal.AppendHours | producer/parsers/da_hourly_zonal.py:130-150 | the DeliveryHour loop appends each hour's record, in order |
| DayAheadZonal.AppendComponents | producer/parsers/da_hourly_zonal.py:124-150 | the Components loop appends the "Zonal Price" components' records |
| DayAheadZonal.AppendZones | producer/parsers/da_hourly_zonal.py:115-150 | the zone loop yields every named zone's records, in document order |
| DayAheadZonal.FetchDaHourlyZonal | producer/parsers/da_hourly_zonal.py:61-150 | the fetch returns the parse of the document the retry loop delivers, else nothing |
| DayAheadZonal.HourRecordsMembers | producer/parsers/da_hourly_zonal.py:130-150 | a record comes from a component exactly when one of its hours with parseable Hour and LMP yields it |
| DayAheadZonal.ComponentsRecordsMembers | producer/parsers/da_hourly_zonal.py:124-127 | only components named exactly "Zonal Price" contribute |
| DayAheadZonal.ZonesRecordsMembers | producer/parsers/da_hourly_zonal.py:115-121 | records come only from named zones, under the name with ":HUB" removed |
| DayAheadZonal.DaZonalRecordsShape | producer/parsers/da_hourly_zonal.py:101-150 | every record carries the fetch time, the DocBody date and a named zone's label |
| IntertieLmp.AppendEntries | producer/parsers/realtime_intertie_lmp.py:94-113 | the entry loop appends each entry's record, in order |
| IntertieLmp.AppendComponents | producer/parsers/realtime_intertie_lmp.py:89-113 | the Components loop appends the "Intertie LMP" components' records |
| IntertieLmp.AppendPrices | producer/parsers/realtime_intertie_lmp.py:81-113 | the IntertieLMPrice loop yields every named point's records, in document order |
| IntertieLmp.PricesRecordsMembers | producer/parsers/realtime_intertie_lmp.py:81-113 | a record comes out exactly when a named point's "Intertie LMP" entry yields it under the point's zone group |
| IntertieLmp.ComponentsRecordsMembers | producer/parsers/realtime_intertie_lmp.py:89-92 | only components named exactly "Intertie LMP" contribute |
| IntertieLmp.EntryRecordsMembers | producer/parsers/realtime_intertie_lmp.py:94-113 | a record comes from a component exactly when one of its entries yields it |
| IntertieLmp.MapZoneDropsLmp | producer/parsers/realtime_intertie_lmp.py:34 | a trailing ":LMP" does not change the zone group |
| IntertieLmp.MapZoneQuebecPrefix | producer/parsers/realtime_intertie_lmp.py:35-36 | every "PQ." point is QUEBEC, whatever its suffix |
| IntertieLmp.MapZoneOfSuffix | producer/parsers/realtime_intertie_lmp.py:37-44 | a non-Quebec name whose last "_" part is in the table gets that part's group |
| IntertieLmp.MapZoneKeepsName | producer/parsers/realtime_intertie_lmp.py:37-44 | a non-Quebec name without "_", or with an unknown suffix, is its own group |
| IntertieLmp.MapZoneRange | producer/parsers/realtime_intertie_lmp.py:32-44 | the group is QUEBEC, NEW-YORK, MICHIGAN, MINNESOTA, MANITOBA or the name without ":LMP" |
| IntertieLmp.ExtractRealtimeLmp | producer/parsers/realtime_intertie_lmp.py:62-113 | the parse returns the document's records: none without a DocBody or a usable date and hour |
| IntertieLmp.RealtimeRecordSpec | producer/parsers/realtime_intertie_lmp.py:94-113 | an interval yields a record exactly when both texts are present, the interval is 1..12 of an hour 1..24 and the LMP parses; it starts at that interval |
| IntertieLmp.RealtimeLmpShape | producer/parsers/realtime_intertie_lmp.py:62-113 | every record is at a five-minute mark of the delivery hour, labelled with a named point's zone group |
| DayAheadLmp.ExtractDaLmp | producer/parsers/da_intertie_lmp.py:52-101 | the parse returns the document's records: none without a DocBody or DeliveryDate |
| DayAheadLmp.HourlyRecordSpec | producer/parsers/da_intertie_lmp.py:85-101 | an HourlyLMP yields a record exactly when DeliveryHour and LMP are present and parse |
| DayAheadLmp.DaLmpShape | producer/parsers/da_intertie_lmp.py:52-101 | all records share the report's one timestamp and the DocBody date, each labelled with a named point's zone group |
| FuelMix.AppendFuels | producer/parsers/fuel_mix.py:71-86 | the FuelTotal loop appends each fuel's record, in order |
| FuelMix.AppendHours | producer/parsers/fuel_mix.py:58-86 | the HourlyData loop appends each usable hour's records, in order |
| FuelMix.ExtractFuelMix | producer/parsers/fuel_mix.py:46-86 | the DailyData loop yields the records day by day, hour by hour, fuel by fuel |
| FuelMix.HourStampSpec | producer/parsers/fuel_mix.py:58-68 | an hour is usable exactly when its text is a number 1..24, and starts at (hour-1):00 |
| FuelMix.FuelRecordSpec | producer/parsers/fuel_mix.py:71-86 | a fuel yields a record exactly when Fuel, EnergyValue and a parseable Output are there |
| FuelMix.FuelRecordsMembers | producer/parsers/fuel_mix.py:71-86 | a record comes from an hour exactly when one of its fuels yields it |
| FuelMix.HoursRecordsMembers | producer/parsers/fuel_mix.py:58-86 | a record comes from a day exactly when one of its usable hours yields it |
| FuelMix.FuelMixMembers | producer/parsers/fuel_mix.py:46-55 | a record comes out exactly when one of the days with a usable Day yields it |
| FuelMix.FuelMixShape | producer/parsers/fuel_mix.py:46-84 | every record is a fuel output at the start of an hour of a day that some DailyData names |
| ZonalDemand.AppendZones | producer/parsers/zonal_demand.py:79-89 | the zone loop appends each readable zone's record, in table order |
| ZonalDemand.AppendRow | producer/parsers/zonal_demand.py:62-93 | one row's body: nothing for a short row or a bad interval, else its zone records |
| ZonalDemand.ExtractZonalDemand | producer/parsers/zonal_demand.py:56-93 | the row loop yields every data row's records, in file order |
| ZonalDemand.HeaderIgnored | producer/parsers/zonal_demand.py:59-60 | the four metadata rows never affect the records |
| ZonalDemand.ShortFileEmpty | producer/parsers/zonal_demand.py:59-64 | a file of at most four rows has no records |
| ZonalDemand.BlankCellIsZero | producer/parsers/zonal_demand.py:81 | a blank demand cell reads as 0.0 |
| ZonalDemand.ZoneRecordsSpec | producer/parsers/zonal_demand.py:79-87 | when every zone cell reads, one record per zone in order, each with its cell's demand |
| ZonalDemand.FullRowRecords | producer/parsers/zonal_demand.py:62-87 | a valid row whose cells all read yields ten records, NORTHWEST to WEST, one timestamp |
| ZonalDemand.ZoneRecordsMembers | producer/parsers/zonal_demand.py:79-89 | every zone record carries the row's timestamp and one zone's cell value |
| ZonalDemand.RowRecordsShape | producer/parsers/zonal_demand.py:66-87 | every record comes from a long-enough row with a valid interval, at a five-minute mark, with a zone's cell value |
| Backfill.ArchiveNameParts | producer/main.py:139-140 | a name is the prefix, the 8-digit compact date and the 2-digit hour, at fixed places |
| Backfill.ArchiveUrlInjective | producer/main.py:61-62 | two archive URLs are equal exactly when their dates and hours are |
| Backfill.BuildFetchList | producer/main.py:230-234 | the two loops build the fetch list |
| Backfill.FetchListSpec | producer/main.py:217-234 | 25+now.hour entries: hours 1..24 of yesterday, then today's hours 1..now.hour+1, oldest first |
| Backfill.FetchListDistinct | producer/main.py:230-234 | no archive is fetched twice |
| Backfill.FetchHourlyArchive | producer/main.py:120-199 | nothing for a 404 or a failure before parsing, else the archive's records up to its first bad interval |
| Backfill.FetchPriceArchive | producer/main.py:43-117 | nothing for a 404 or a failure before parsing, else the archive's records parsed as the live report is |
| Backfill.CollectTotals | producer/main.py:239-247 | the demand/supply lists are the archives' lists concatenated in fetch order |
| Backfill.CollectPrices | producer/main.py:250-256 | the price list is the archives' lists concatenated in fetch order |
| Backfill.FetchArchives | producer/main.py:226-256 | both archive families are collected over the fetch list |
| Backfill.BackfillOnStartup | producer/main.py:202-273 | the log grows by the non-empty demand, supply and price lists, in that order, up to the first publish that raises |
| Backfill.PublishBackfill | producer/main.py:258-271 | publishes the non-empty lists in the order demand, supply, prices; nothing when all are empty |
| Backfill.ArchivesTotalsAppend | producer/main.py:242-247 | collecting two lists of archives is collecting each, concatenated |
| Backfill.ArchivesPricesAppend | producer/main.py:253-256 | collecting two lists of archives is collecting each, concatenated |
| Backfill.ArchivesTotalsShape | producer/main.py:159-194 | every backfilled demand record is Ontario demand and every supply record the realtime total, at five-minute marks |
| Backfill.ArchivesPricesShape | producer/main.py:81-112 | every backfilled price record is a zonal price at a five-minute mark |
| BackfillScript.DayArchivesSpec | producer/backfill_realtime_totals.py:141-144 | the script fetches 24 archives of the day, hours 1..24 ascending |
| BackfillScript.BackfillDate | producer/backfill_realtime_totals.py:124-162 | a text that is not a date publishes nothing; otherwise the day's non-empty demand and supply lists are published |
| BackfillScript.PublishDay | producer/backfill_realtime_totals.py:146-162 | publishes non-empty demand, then non-empty supply; nothing when both are empty |
| LiveCycle.PublishFamily | producer/main.py:292-296 | a served list is published even when empty; the block completes unless that publish sends records to a refusing topic |
| LiveCycle.PublishTotals | producer/main.py:298-306 | a served totals result publishes demand, then supply to the fuel-mix topic, stopping when a non-empty list is refused |
| LiveCycle.PublishGuarded | producer/main.py:334-344 | a non-empty served list is published inside its own `try` |
| LiveCycle.PublishFiveMinute | producer/main.py:284-312 | prices, totals and generator output are published in that order, stopping at a publish that raises |
| LiveCycle.PublishHourly | producer/main.py:315-331 | fuel mix, then intertie flow, stopping at a publish that raises |
| LiveCycle.PublishGuardedFamilies | producer/main.py:333-357 | adequacy, then day-ahead prices, neither able to end the cycle |
| LiveCycle.FetchAllReports | producer/main.py:276-363 | the log grows by the cycle's publish calls in code order, up to the first unguarded publish that raises |
| LiveCycle.SentUnguarded | producer/main.py:292-296 | a family under the outer handler sends its list exactly when its fetch succeeded |
| LiveCycle.SentGuarded | producer/main.py:336-339 | a family in its own `try` sends its list exactly when its fetch returned records |
| LiveCycle.SentTotals | producer/main.py:298-304 | the totals block sends demand and supply exactly when its fetch succeeded |
| LiveCycle.CycleWithoutFailures | producer/main.py:282-357 | with no publish raising, the cycle sends each block's batches in code order |
| LiveCycle.CycleSends | producer/main.py:282-357 | with no publish raising, a batch is sent exactly when one of the seven blocks sends it |
| LiveCycle.FiveMinutePublished | producer/main.py:292-311 | prices, demand and generator output are published exactly when fetched, even empty, whatever the others did |
| LiveCycle.HourlyPublished | producer/main.py:321-331 | the fuel-mix topic receives the realtime supply and the fuel mix; intertie flow is published exactly when fetched |
| LiveCycle.GuardedPublished | producer/main.py:334-357 | adequacy and day-ahead prices are published exactly when fetched and non-empty |
| LiveCycle.UnguardedFailureEndsCycle | producer/main.py:282-363 | a refused non-empty price list delivers nothing; a refused non-empty demand list leaves only the prices |
| LiveCycle.EmptyPricesContinue | producer/main.py:292-296 | an empty price list cannot end the cycle: it is logged and the cycle goes on as if prices had not been fetched |
| LiveCycle.GuardedFailureSkipsOnlyItsBatch | producer/main.py:334-357 | a refused adequacy or day-ahead publish costs only its own batch |

## Left out

- HTTP transport, timeouts and status codes are not modelled. Each fetch outcome is a
  parameter: `Retry.Attempt` or `Records.Live`.
- XML decoding and CSV tokenising are not modelled. Documents are given decoded, and CSV rows as
  lists of fields. `.//` descendant searches are the element lists of the datatypes.
- Floating-point behaviour is not modelled. Measurements are exact `real`s, and Import minus
  Export is exact.
- `asyncio` concurrency, `asyncio.sleep`, the scheduler loop (`producer/main.py:366-401`) and
  all logging are left out. Elapsed time, the adequacy peak summary and the counts of zones and
  dates are logging only. Sleeps are recorded as a list of pauses in seconds.
- The Eastern-time clock (`producer/utils/timezone.py`) is not modelled. "Now" is an input date
  and hour.
- The weather forecast parser, configuration and the manual test script are not part of this
  model.
- `zonal_demand.py` is modelled, but `fetch_all_reports` does not call it. The same holds for the
  two intertie LMP parsers and for the day-ahead zonal parser.
- Record timestamps are `(date, hour, minute, second)` values. Their `isoformat` / `strftime`
  spelling is not modelled.
- DayAheadLmp.ReportStamp: `fromisoformat` on CreatedAt, and the `utcnow()` fallback, are not
  modelled. The creation time is an `Option` in the decoded document, and "UTC now" is a
  parameter.
- Publishing.Publisher.PublishBatch: a batch is delivered whole or not at all. `publish_batch`
  sends its records one by one, so a failure part-way through a batch is not modelled.
  Whether a publish raises depends only on its topic and on whether it sends any record. So the
  two non-empty fuel-mix publishes of one cycle succeed or fail together.
- Numbers.ParseInt: accepts only an optional sign followed by ASCII digits. Python's `int` also
  allows surrounding whitespace, underscores between digits and non-ASCII Unicode decimal
  digits.
- Numbers.ParseNum: accepts only a sign, digits and an optional fraction. Python's `float` also
  allows exponents, "inf", "nan", surrounding whitespace, underscores between digits and
  non-ASCII Unicode decimal digits.
- Calendar.ParseIsoDate: accepts only the zero-padded form with ASCII digits. `strptime` also
  takes one-digit months and days, a space-padded day (as in "2026-01- 5") and non-ASCII
  Unicode decimal digits.
- Text.Strip: removes the six ASCII blanks. Python's `strip()` also removes the separators
  `\x1c`-`\x1f` and non-ASCII whitespace.
- Adequacy.FetchAdequacy: requires that "now" is not the last representable day when the hour
  is 13 or later, because `now + timedelta(days=1)` would overflow there.
- Backfill.BackfillOnStartup: requires that "now" is not the first representable day, because
  `now - timedelta(days=1)` would overflow there.
- Backfill.ArchiveName: requires an hour in 0..99, where `{hour:02d}` is two digits. The
  backfill passes only hours 1..24.
- The gather-exception branches of the startup backfill (`producer/main.py:243-244`,
  `producer/main.py:254-255`) are not modelled. Both archive fetchers catch every exception
  themselves, so no result is ever an exception.
- The adequacy `date_str` (`producer/parsers/adequacy.py:55`) appears only in log messages.
  It is modelled as `Calendar.IsoFromCompact`, with its relation to the URL date proved, but no
  record carries it.
- Hours in the adequacy, day-ahead Ontario, day-ahead zonal and day-ahead intertie LMP reports
  are not range-checked, as in the code.
- `min(current_hour + 1, 25)` in the backfill (`producer/main.py:219`, `:232`): the cap never
  binds, because `current_hour + 1` is at most 25. `Backfill.FetchListSpec` gives the length
  of the list as 25 + now.hour.
- Clock.IntervalStart: an hour or minute beyond the range of a C `int` makes
  `datetime.replace` raise OverflowError, not ValueError. The `except ValueError` clauses
  around the timestamp in the parsers do not catch it. So a live parse raises, and that family
  is not published that cycle. The price archive keeps only the records before that interval
  (`producer/main.py:114`). The model does not capture this: it treats such a value like any
  other out-of-range one and skips only that interval. The totals archive is unaffected,
  because it catches every exception (`producer/main.py:196`).
