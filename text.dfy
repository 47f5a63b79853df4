/** The few string operations the report parsers use, with Python's semantics. */
module Text {
  import opened Wrappers

  /** Python truthiness of a text that may be missing: `if x:` fails for None and for "". */
  predicate Present(s: Option<string>) {
    s.Some? && s.value != ""
  }

  predicate StartsWith(s: string, prefix: string) {
    |prefix| <= |s| && s[..|prefix|] == prefix
  }

  /** Python's `pat in s`. */
  predicate Contains(s: string, pat: string)
    decreases |s|
  {
    StartsWith(s, pat) || (s != [] && Contains(s[1..], pat))
  }

  /** Python's `s.replace(pat, rep)`: non-overlapping occurrences, scanned left to right. */
  function Replace(s: string, pat: string, rep: string): (r: string)
    requires pat != []
    ensures !Contains(s, pat) ==> r == s
    decreases |s|
  {
    if |s| < |pat| then s
    else if s[..|pat|] == pat then rep + Replace(s[|pat|..], pat, rep)
    else [s[0]] + Replace(s[1..], pat, rep)
  }

  /** Removing a suffix: when the pattern's first character does not occur in `base`,
      deleting the pattern from `base + pat` gives back `base` ("EAST:HUB" becomes "EAST"). */
  lemma {:induction false} ReplaceDropsSuffix(base: string, pat: string)
    requires pat != [] && pat[0] !in base
    ensures Replace(base + pat, pat, "") == base
    decreases |base|
  {
    if base == [] {
      assert (base + pat)[..|pat|] == pat;
      assert (base + pat)[|pat|..] == [];
    } else {
      var s := base + pat;
      assert s[0] == base[0] != pat[0];
      assert s[..|pat|] != pat;
      assert s[1..] == base[1..] + pat;
      ReplaceDropsSuffix(base[1..], pat);
      assert [s[0]] + base[1..] == base;
    }
  }

  /** A text lacking the pattern's first character does not contain the pattern. */
  lemma {:induction false} NotContainsWithoutHead(s: string, pat: string)
    requires pat != [] && pat[0] !in s
    ensures !Contains(s, pat)
    decreases |s|
  {
    if |pat| <= |s| {
      assert s[..|pat|][0] == s[0];
    }
    if s != [] {
      assert forall c :: c in s[1..] ==> c in s;
      NotContainsWithoutHead(s[1..], pat);
    }
  }

  /** Python's `s.split(sep)[-1]`: the text after the last `sep` (all of `s` when there is none). */
  function AfterLast(s: string, sep: char): (r: string)
    ensures sep !in r
    ensures |r| <= |s| && r == s[|s| - |r|..]
    ensures sep !in s ==> r == s
    decreases |s|
  {
    if s == [] then []
    else if s[|s| - 1] == sep then []
    else AfterLast(s[..|s| - 1], sep) + [s[|s| - 1]]
  }

  /** Splitting on the last separator recovers the part after it. */
  lemma {:induction false} AfterLastOfJoin(prefix: string, sep: char, suffix: string)
    requires sep !in suffix
    ensures AfterLast(prefix + [sep] + suffix, sep) == suffix
    decreases |suffix|
  {
    var s := prefix + [sep] + suffix;
    if suffix == [] {
      assert s[|s| - 1] == sep;
    } else {
      var last := suffix[|suffix| - 1];
      assert s[|s| - 1] == last;
      assert s[..|s| - 1] == prefix + [sep] + suffix[..|suffix| - 1];
      AfterLastOfJoin(prefix, sep, suffix[..|suffix| - 1]);
      assert suffix[..|suffix| - 1] + [last] == suffix;
    }
  }

  /** The ASCII whitespace that Python's `str.strip()` removes. */
  predicate IsSpace(c: char) {
    c == ' ' || c == '\t' || c == '\n' || c == '\r' || c == '\U{000B}' || c == '\U{000C}'
  }

  function StripLeft(s: string): (r: string)
    ensures |r| <= |s| && r == s[|s| - |r|..]
    ensures r == [] || !IsSpace(r[0])
    decreases |s|
  {
    if s != [] && IsSpace(s[0]) then StripLeft(s[1..]) else s
  }

  function StripRight(s: string): (r: string)
    ensures |r| <= |s| && r == s[..|r|]
    ensures r == [] || !IsSpace(r[|r| - 1])
    decreases |s|
  {
    if s != [] && IsSpace(s[|s| - 1]) then StripRight(s[..|s| - 1]) else s
  }

  /** Python's `s.strip()`: the blanks at both ends removed. */
  function Strip(s: string): string
    decreases |s|
  {
    if s != [] && IsSpace(s[0]) then Strip(s[1..]) else StripRight(s)
  }

  /** Neither end of a stripped text is blank. */
  lemma {:induction false} StripEnds(s: string)
    ensures var r := Strip(s); r == [] || (!IsSpace(r[0]) && !IsSpace(r[|r| - 1]))
    decreases |s|
  {
    if s != [] && IsSpace(s[0]) {
      StripEnds(s[1..]);
    } else {
      var r := StripRight(s);
      assert r != [] ==> r[0] == s[0];
    }
  }

  /** Stripping is stripping the left end, then the right end. */
  lemma {:induction false} StripBothEnds(s: string)
    ensures Strip(s) == StripRight(StripLeft(s))
    decreases |s|
  {
    if s != [] && IsSpace(s[0]) {
      StripBothEnds(s[1..]);
    }
  }

  /** `StripLeft` removes only blanks. */
  lemma {:induction false} StripLeftDrops(s: string)
    ensures forall i :: 0 <= i < |s| - |StripLeft(s)| ==> IsSpace(s[i])
    decreases |s|
  {
    if s != [] && IsSpace(s[0]) {
      StripLeftDrops(s[1..]);
      forall i | 1 <= i < |s| - |StripLeft(s)|
        ensures IsSpace(s[i])
      {
        assert s[i] == s[1..][i - 1];
      }
    }
  }

  /** `StripRight` removes only blanks. */
  lemma {:induction false} StripRightDrops(s: string)
    ensures forall i :: |StripRight(s)| <= i < |s| ==> IsSpace(s[i])
    decreases |s|
  {
    if s != [] && IsSpace(s[|s| - 1]) {
      StripRightDrops(s[..|s| - 1]);
      forall i | |StripRight(s)| <= i < |s| - 1
        ensures IsSpace(s[i])
      {
        assert s[i] == s[..|s| - 1][i];
      }
    }
  }

  /** Stripping keeps every character that is not blank. */
  lemma StripKeeps(s: string)
    ensures forall c :: c in s && !IsSpace(c) ==> c in Strip(s)
  {
    var l := StripLeft(s);
    var r := StripRight(l);
    var k := |s| - |l|;
    StripBothEnds(s);
    StripLeftDrops(s);
    StripRightDrops(l);
    forall c | c in s && !IsSpace(c)
      ensures c in Strip(s)
    {
      var i :| 0 <= i < |s| && s[i] == c;
      assert !(i < k);
      assert l[i - k] == c;
      assert !(|r| <= i - k);
      assert r[i - k] == c;
    }
  }

  /** A text of blanks only strips to nothing. */
  lemma StripBlank(s: string)
    requires forall i :: 0 <= i < |s| ==> IsSpace(s[i])
    ensures Strip(s) == []
  {
    StripBothEnds(s);
  }
}
