/** Dictionaries filled entry by entry with `d[key] = value`, where a later write to a key
    replaces an earlier one, and the `(hour, value)` entries of the hourly reports. */
module Merge {
  import opened Wrappers
  import opened Text
  import opened Numbers

  /** The dictionary after writing each present reading of `rs` in order. */
  function LastWins<K(==), V>(rs: seq<Option<(K, V)>>): map<K, V> {
    if rs == [] then map[]
    else
      var m := LastWins(rs[..|rs| - 1]);
      match rs[|rs| - 1]
      case None => m
      case Some(kv) => m[kv.0 := kv.1]
  }

  lemma LastWinsSnoc<K, V>(rs: seq<Option<(K, V)>>, r: Option<(K, V)>)
    ensures LastWins(rs + [r]) == match r case None => LastWins(rs) case Some(kv) => LastWins(rs)[kv.0 := kv.1]
  {
    assert (rs + [r])[..|rs|] == rs;
  }

  /** A key is in the dictionary exactly when some reading writes it. */
  lemma {:induction false} LastWinsKeys<K, V>(rs: seq<Option<(K, V)>>, k: K)
    ensures k in LastWins(rs) <==> exists i :: 0 <= i < |rs| && rs[i].Some? && rs[i].value.0 == k
  {
    if rs != [] {
      var n := |rs| - 1;
      LastWinsKeys(rs[..n], k);
      if k in LastWins(rs) && !(rs[n].Some? && rs[n].value.0 == k) {
        var i :| 0 <= i < n && rs[..n][i].Some? && rs[..n][i].value.0 == k;
        assert rs[i] == rs[..n][i];
      }
      if i :| 0 <= i < |rs| && rs[i].Some? && rs[i].value.0 == k {
        if i < n {
          assert rs[..n][i] == rs[i];
        }
      }
    }
  }

  /** The value under a key is the one the last reading writing that key carries. */
  lemma {:induction false} LastWinsValue<K, V>(rs: seq<Option<(K, V)>>, i: nat)
    requires i < |rs| && rs[i].Some?
    requires forall j :: i < j < |rs| && rs[j].Some? ==> rs[j].value.0 != rs[i].value.0
    ensures rs[i].value.0 in LastWins(rs) && LastWins(rs)[rs[i].value.0] == rs[i].value.1
  {
    var n := |rs| - 1;
    if i < n {
      assert rs[..n][i] == rs[i];
      LastWinsValue(rs[..n], i);
    }
  }

  /** `d.get(k, 0.0)`. */
  function ValueOr<K>(m: map<K, real>, k: K): real {
    if k in m then m[k] else 0.0
  }

  /** `float(text) if text else 0.0`: none when a present text does not parse. */
  function ValueOrZero(text: Option<string>): Option<real> {
    if Present(text) then ParseNum(text.value) else Some(0.0)
  }

  /** An hourly element of a report: its hour-ending text and its energy text, either of which
      may be absent or empty. */
  datatype HourlyEntry = HourlyEntry(hour: Option<string>, energy: Option<string>)

  /** The `d[int(hour)] = float(energy)` write an entry makes: none when either text is missing
      or does not parse. */
  function HourReading(e: HourlyEntry): Option<(int, real)> {
    if Present(e.hour) && Present(e.energy) then
      match (ParseInt(e.hour.value), ParseNum(e.energy.value))
      case (Some(h), Some(v)) => Some((h, v))
      case _ => None
    else None
  }

  /** An entry writes exactly when both texts are present and parse, and then writes the parsed
      hour and value. */
  lemma HourReadingSpec(e: HourlyEntry)
    ensures HourReading(e).Some? <==> Present(e.hour) && Present(e.energy)
                                      && ParseInt(e.hour.value).Some? && ParseNum(e.energy.value).Some?
    ensures HourReading(e).Some? ==> HourReading(e).value == (ParseInt(e.hour.value).value, ParseNum(e.energy.value).value)
  {
  }

  /** The writes of the entries, in order. */
  function HourReadings(es: seq<HourlyEntry>): (rs: seq<Option<(int, real)>>)
    ensures |rs| == |es|
  {
    seq(|es|, i requires 0 <= i < |es| => HourReading(es[i]))
  }

  /** The hour-to-value dictionary the entries fill. */
  function ByHour(es: seq<HourlyEntry>): map<int, real> {
    LastWins(HourReadings(es))
  }

  /** Hour `h` has a value exactly when some entry parses to hour `h`; that value is the one of
      the last such entry. */
  lemma ByHourSpec(es: seq<HourlyEntry>, i: nat)
    requires i < |es| && HourReading(es[i]).Some?
    requires forall j :: i < j < |es| && HourReading(es[j]).Some? ==> HourReading(es[j]).value.0 != HourReading(es[i]).value.0
    ensures var (h, v) := HourReading(es[i]).value; h in ByHour(es) && ByHour(es)[h] == v
  {
    LastWinsValue(HourReadings(es), i);
  }

  lemma ByHourKeys(es: seq<HourlyEntry>, h: int)
    ensures h in ByHour(es) <==> exists i :: 0 <= i < |es| && HourReading(es[i]).Some? && HourReading(es[i]).value.0 == h
  {
    var rs := HourReadings(es);
    LastWinsKeys(rs, h);
    if h in ByHour(es) {
      var i :| 0 <= i < |rs| && rs[i].Some? && rs[i].value.0 == h;
      assert HourReading(es[i]).Some? && HourReading(es[i]).value.0 == h;
    }
    forall i | 0 <= i < |es| && HourReading(es[i]).Some? && HourReading(es[i]).value.0 == h
      ensures h in ByHour(es)
    {
      assert rs[i] == HourReading(es[i]);
    }
  }

  /** The `for ...: if hour and energy: try: d[int(hour)] = float(energy)` loop. */
  method CollectByHour(es: seq<HourlyEntry>) returns (m: map<int, real>)
    ensures m == ByHour(es)
  {
    m := map[];
    for i := 0 to |es|
      invariant m == LastWins(HourReadings(es[..i]))
    {
      var e := es[i];
      assert es[..i + 1] == es[..i] + [e];
      assert HourReadings(es[..i + 1]) == HourReadings(es[..i]) + [HourReading(e)];
      LastWinsSnoc(HourReadings(es[..i]), HourReading(e));
      var r := HourReading(e);
      if r.Some? {
        m := m[r.value.0 := r.value.1];
      }
    }
    assert es[..|es|] == es;
  }
}
