/** Naive local date-times, as the records carry them, and the IESO numbering of delivery hours
    (1..24) and five-minute intervals (1..12) within them. */
module Clock {
  import opened Wrappers
  import opened Text
  import opened Numbers
  import opened Calendar

  datatype DateTime = DateTime(date: Date, hour: int, minute: int, second: int)

  predicate ValidDateTime(t: DateTime) {
    ValidDate(t.date) && 0 <= t.hour < 24 && 0 <= t.minute < 60 && 0 <= t.second < 60
  }

  /** `base.replace(hour=hour, minute=minute, second=0, microsecond=0)`: None is the ValueError
      raised for an hour outside 0..23 or a minute outside 0..59. */
  function At(base: Date, hour: int, minute: int): Option<DateTime> {
    if 0 <= hour < 24 && 0 <= minute < 60 then Some(DateTime(base, hour, minute, 0)) else None
  }

  /** The start of five-minute interval `interval` of delivery hour `deliveryHour`:
      hour deliveryHour - 1, minute (interval - 1) * 5. */
  function IntervalStart(base: Date, deliveryHour: int, interval: int): (t: Option<DateTime>)
    ensures t.Some? <==> 1 <= deliveryHour <= 24 && 1 <= interval <= 12
    ensures t.Some? ==> t.value.date == base && t.value.hour == deliveryHour - 1
                        && t.value.minute == (interval - 1) * 5 && t.value.second == 0
    ensures t.Some? && ValidDate(base) ==> ValidDateTime(t.value)
  {
    At(base, deliveryHour - 1, (interval - 1) * 5)
  }

  /** The start of delivery hour `deliveryHour`: (deliveryHour - 1):00. */
  function HourStart(base: Date, deliveryHour: int): (t: Option<DateTime>)
    ensures t.Some? <==> 1 <= deliveryHour <= 24
    ensures t.Some? ==> t == IntervalStart(base, deliveryHour, 1)
  {
    At(base, deliveryHour - 1, 0)
  }

  /** The start of the interval whose number is the text `interval`: none when `int(interval)`
      fails or `replace` rejects the hour or minute. */
  function IntervalTime(base: Date, deliveryHour: int, interval: string): (t: Option<DateTime>)
    ensures t.Some? <==> ParseInt(interval).Some? && 1 <= deliveryHour <= 24 && 1 <= ParseInt(interval).value <= 12
    ensures t.Some? ==> t == IntervalStart(base, deliveryHour, ParseInt(interval).value)
  {
    match ParseInt(interval)
    case None => None
    case Some(i) => IntervalStart(base, deliveryHour, i)
  }

  /** A timestamp on the five-minute grid of delivery hour `deliveryHour` of `base`. */
  predicate InDeliveryHour(ts: DateTime, base: Date, deliveryHour: int) {
    ts.date == base && ts.hour == deliveryHour - 1 && 0 <= ts.hour < 24
    && 0 <= ts.minute < 60 && ts.minute % 5 == 0 && ts.second == 0
  }

  /** A report's delivery date and hour: `strptime(date, "%Y-%m-%d")` and `int(hour)`; none when
      either text is missing or empty or does not parse. */
  function DeliveryHeader(date: Option<string>, hour: Option<string>): Option<(Date, int)>
  {
    if !Present(date) || !Present(hour) then None
    else
      match (ParseIsoDate(date.value), ParseInt(hour.value))
      case (Some(d), Some(h)) => Some((d, h))
      case _ => None
  }

  /** `strptime(text, "%Y-%m-%d")` on a text that must be present: none when it is missing,
      empty or not a date. */
  function DateOf(text: Option<string>): Option<Date> {
    if Present(text) then ParseIsoDate(text.value) else None
  }

  /** Every interval start lies on the five-minute grid of its delivery hour. */
  lemma IntervalStartInHour(base: Date, deliveryHour: int, interval: int)
    requires IntervalStart(base, deliveryHour, interval).Some?
    ensures InDeliveryHour(IntervalStart(base, deliveryHour, interval).value, base, deliveryHour)
  {
    var m := (interval - 1) * 5;
    assert m % 5 == 0;
  }

  /** The IMODocBody of the reports in the theIMO.com namespace: its Date text. */
  datatype ImoDocBody = ImoDocBody(date: Option<string>)

  /** The delivery day of a theIMO.com report: none without an IMODocBody or a usable Date. */
  function BodyDate(body: Option<ImoDocBody>): Option<Date> {
    if body.Some? then DateOf(body.value.date) else None
  }

  /** Different (hour, interval) pairs of one delivery day start at different instants. */
  lemma IntervalStartInjective(base: Date, h1: int, i1: int, h2: int, i2: int)
    requires IntervalStart(base, h1, i1).Some? && IntervalStart(base, h1, i1) == IntervalStart(base, h2, i2)
    ensures h1 == h2 && i1 == i2
  {
  }

  /** The worked example: hour 13, interval 3 of 2026-01-26 starts at 12:10. */
  lemma IntervalStartExample()
    ensures IntervalStart(Date(2026, 1, 26), 13, 3) == Some(DateTime(Date(2026, 1, 26), 12, 10, 0))
  {
  }
}
