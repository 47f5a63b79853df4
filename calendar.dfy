/** Civil dates of the proleptic Gregorian calendar, in Python `datetime`'s range of years 1..9999:
    `timedelta(days=1)` steps, and the "%Y-%m-%d" / "%Y%m%d" spellings the reports and URLs use. */
module Calendar {
  import opened Wrappers
  import opened Numbers

  datatype Date = Date(year: int, month: int, day: int)

  predicate IsLeapYear(y: int) {
    y % 4 == 0 && (y % 100 != 0 || y % 400 == 0)
  }

  function DaysInMonth(y: int, m: int): (n: int)
    requires 1 <= m <= 12
    ensures 28 <= n <= 31
  {
    if m == 2 then (if IsLeapYear(y) then 29 else 28)
    else if m == 4 || m == 6 || m == 9 || m == 11 then 30
    else 31
  }

  predicate ValidDate(d: Date) {
    1 <= d.year <= 9999 && 1 <= d.month <= 12 && 1 <= d.day <= DaysInMonth(d.year, d.month)
  }

  const MinDate := Date(1, 1, 1)
  const MaxDate := Date(9999, 12, 31)

  /** Calendar order. */
  predicate Before(a: Date, b: Date) {
    a.year < b.year
    || (a.year == b.year && a.month < b.month)
    || (a.year == b.year && a.month == b.month && a.day < b.day)
  }

  /** `d + timedelta(days=1)`. */
  function NextDay(d: Date): (n: Date)
    requires ValidDate(d) && d != MaxDate
    ensures ValidDate(n) && Before(d, n)
  {
    if d.day < DaysInMonth(d.year, d.month) then Date(d.year, d.month, d.day + 1)
    else if d.month < 12 then Date(d.year, d.month + 1, 1)
    else Date(d.year + 1, 1, 1)
  }

  /** `d - timedelta(days=1)`. */
  function PrevDay(d: Date): (p: Date)
    requires ValidDate(d) && d != MinDate
    ensures ValidDate(p) && Before(p, d)
  {
    if d.day > 1 then Date(d.year, d.month, d.day - 1)
    else if d.month > 1 then Date(d.year, d.month - 1, DaysInMonth(d.year, d.month - 1))
    else Date(d.year - 1, 12, 31)
  }

  /** Yesterday and tomorrow undo each other. */
  lemma PrevNextInverse(d: Date)
    requires ValidDate(d)
    ensures d != MaxDate ==> NextDay(d) != MinDate && PrevDay(NextDay(d)) == d
    ensures d != MinDate ==> PrevDay(d) != MaxDate && NextDay(PrevDay(d)) == d
  {
  }

  /** No valid date lies strictly between a date and the next one. */
  lemma NextDayIsSuccessor(d: Date, e: Date)
    requires ValidDate(d) && d != MaxDate && ValidDate(e)
    requires Before(d, e)
    ensures e == NextDay(d) || Before(NextDay(d), e)
  {
  }

  /** `d.strftime("%Y-%m-%d")`. */
  function FormatIso(d: Date): (s: string)
    requires ValidDate(d)
    ensures |s| == 10 && s[4] == '-' && s[7] == '-'
  {
    Pad4(d.year) + "-" + Pad2(d.month) + "-" + Pad2(d.day)
  }

  /** `d.strftime("%Y%m%d")`. */
  function FormatCompact(d: Date): (s: string)
    requires ValidDate(d)
    ensures |s| == 8 && AllDigits(s)
  {
    Pad4(d.year) + Pad2(d.month) + Pad2(d.day)
  }

  /** `datetime.strptime(s, "%Y-%m-%d")`, restricted to the zero-padded form: four digits, '-',
      two digits, '-', two digits, naming a real calendar day. None is the ValueError. */
  function ParseIsoDate(s: string): (r: Option<Date>)
    ensures r.Some? ==> ValidDate(r.value)
  {
    if |s| == 10 && s[4] == '-' && s[7] == '-'
       && AllDigits(s[..4]) && AllDigits(s[5..7]) && AllDigits(s[8..])
    then
      var d := Date(DigitsValue(s[..4]), DigitsValue(s[5..7]), DigitsValue(s[8..]));
      if ValidDate(d) then Some(d) else None
    else None
  }

  /** Parsing inverts formatting ... */
  lemma ParseFormatIso(d: Date)
    requires ValidDate(d)
    ensures ParseIsoDate(FormatIso(d)) == Some(d)
  {
    var s := FormatIso(d);
    assert s[..4] == Pad4(d.year);
    assert s[5..7] == Pad2(d.month);
    assert s[8..] == Pad2(d.day);
    Pad4Value(d.year);
    Pad2Value(d.month);
    Pad2Value(d.day);
  }

  /** ... and formatting inverts parsing: the accepted texts are exactly the formatted dates. */
  lemma FormatParseIso(s: string)
    requires ParseIsoDate(s).Some?
    ensures FormatIso(ParseIsoDate(s).value) == s
  {
    DigitsPad4(s[..4]);
    DigitsPad2(s[5..7]);
    DigitsPad2(s[8..]);
    assert s == s[..4] + "-" + s[5..7] + "-" + s[8..];
  }

  /** Python's slice `c[i:j]`, which clamps out-of-range bounds instead of failing. */
  function Slice(c: string, i: nat, j: nat): (r: string)
    ensures |r| <= |c|
  {
    var lo := if i < |c| then i else |c|;
    var hi := if j < |c| then j else |c|;
    if lo <= hi then c[lo..hi] else []
  }

  /** `f"{c[:4]}-{c[4:6]}-{c[6:]}"`: a compact date spelled with dashes. */
  function IsoFromCompact(c: string): string {
    Slice(c, 0, 4) + "-" + Slice(c, 4, 6) + "-" + Slice(c, 6, |c|)
  }

  /** Slicing a compact date 4/2/2 gives its ISO spelling. */
  lemma IsoFromCompactOfDate(d: Date)
    requires ValidDate(d)
    ensures IsoFromCompact(FormatCompact(d)) == FormatIso(d)
  {
    var c := FormatCompact(d);
    assert Slice(c, 0, 4) == Pad4(d.year);
    assert Slice(c, 4, 6) == Pad2(d.month);
    assert Slice(c, 6, |c|) == Pad2(d.day);
  }

  /** Compacting an accepted ISO text only drops its two dashes. */
  lemma CompactOfParsedIso(s: string)
    requires ParseIsoDate(s).Some?
    ensures FormatCompact(ParseIsoDate(s).value) == s[..4] + s[5..7] + s[8..]
  {
    var d := ParseIsoDate(s).value;
    FormatParseIso(s);
    var f := FormatIso(d);
    assert f[..4] == Pad4(d.year);
    assert f[5..7] == Pad2(d.month);
    assert f[8..] == Pad2(d.day);
  }

  /** Distinct valid dates have distinct compact spellings. */
  lemma FormatCompactInjective(a: Date, b: Date)
    requires ValidDate(a) && ValidDate(b) && FormatCompact(a) == FormatCompact(b)
    ensures a == b
  {
    var c := FormatCompact(a);
    assert c[..4] == Pad4(a.year) == Pad4(b.year);
    assert c[4..6] == Pad2(a.month) == Pad2(b.month);
    assert c[6..] == Pad2(a.day) == Pad2(b.day);
    Pad4Value(a.year);
    Pad4Value(b.year);
    Pad2Injective(a.month, b.month);
    Pad2Injective(a.day, b.day);
  }
}
