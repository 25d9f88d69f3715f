/** The few pieces of Python's `str` behaviour the model relies on: `startswith`,
    `replace(pat, '')`, `split(sep)` and the code-point ordering used when sorting. */
module Text {

  predicate StartsWith(s: string, prefix: string) {
    |prefix| <= |s| && s[..|prefix|] == prefix
  }

  /** `s.replace(pat, '')`: scans left to right and drops every non-overlapping match. */
  function RemoveAll(s: string, pat: string): (r: string)
    requires |pat| > 0
    ensures |r| <= |s|
    decreases |s|
  {
    if |s| == 0 then ""
    else if StartsWith(s, pat) then RemoveAll(s[|pat|..], pat)
    else [s[0]] + RemoveAll(s[1..], pat)
  }

  /** A string without the first character of `pat` is left alone. */
  lemma {:induction false} RemoveAllAbsent(x: string, pat: string)
    requires |pat| > 0 && pat[0] !in x
    ensures RemoveAll(x, pat) == x
    decreases |x|
  {
    if |x| > 0 {
      assert x[0] != pat[0];
      assert !StartsWith(x, pat);
      assert x[1..] == x[1..];
      RemoveAllAbsent(x[1..], pat);
      assert [x[0]] + x[1..] == x;
    }
  }

  /** Dropping a trailing `pat` from a string that does not contain `pat[0]`:
      `"RELIANCE" + ".NS"` becomes `"RELIANCE"`, `"20240105" + ".csv"` becomes `"20240105"`. */
  lemma {:induction false} RemoveAllSuffix(x: string, pat: string)
    requires |pat| > 0 && pat[0] !in x
    ensures RemoveAll(x + pat, pat) == x
    decreases |x|
  {
    if |x| == 0 {
      assert x + pat == pat;
      assert StartsWith(pat, pat);
      assert pat[|pat|..] == "";
    } else {
      var s := x + pat;
      assert s[0] == x[0] && x[0] != pat[0];
      assert !StartsWith(s, pat);
      assert s[1..] == x[1..] + pat;
      RemoveAllSuffix(x[1..], pat);
      assert [x[0]] + x[1..] == x;
    }
  }

  /** `s.split(sep)`: the pieces between separators, always at least one. */
  function Split(s: string, sep: char): (parts: seq<string>)
    ensures |parts| >= 1
    ensures |parts| == 1 + Occurrences(s, sep)
    ensures forall i :: 0 <= i < |parts| ==> sep !in parts[i]
  {
    if |s| == 0 then [""]
    else if s[0] == sep then [""] + Split(s[1..], sep)
    else
      var rest := Split(s[1..], sep);
      [[s[0]] + rest[0]] + rest[1..]
  }

  function Occurrences(s: string, c: char): nat {
    if |s| == 0 then 0 else (if s[0] == c then 1 else 0) + Occurrences(s[1..], c)
  }

  /** `s.split(sep)[-1]` */
  function LastPart(s: string, sep: char): string {
    var parts := Split(s, sep);
    parts[|parts| - 1]
  }

  /** Joining pieces with `sep` and splitting again gives the pieces back, so the last
      part of `x + [sep] + y` is `y` when `y` holds no separator. */
  lemma {:induction false} LastPartAfterSep(x: string, sep: char, y: string)
    requires sep !in y
    ensures LastPart(x + [sep] + y, sep) == y
    decreases |x|
  {
    var s := x + [sep] + y;
    if |x| == 0 {
      assert s == [sep] + y;
      assert s[1..] == y;
      SplitNoSep(y, sep);
    } else {
      assert s[1..] == x[1..] + [sep] + y;
      LastPartAfterSep(x[1..], sep, y);
      var rest := Split(s[1..], sep);
      assert |rest| >= 2 by {
        OccurrencesAppend(x[1..] + [sep], y, sep);
        OccurrencesAppend(x[1..], [sep], sep);
      }
    }
  }

  lemma {:induction false} SplitNoSep(y: string, sep: char)
    requires sep !in y
    ensures Split(y, sep) == [y]
    decreases |y|
  {
    if |y| > 0 {
      SplitNoSep(y[1..], sep);
      assert [y[0]] + y[1..] == y;
    }
  }

  lemma {:induction false} OccurrencesAppend(a: string, b: string, c: char)
    ensures Occurrences(a + b, c) == Occurrences(a, c) + Occurrences(b, c)
    decreases |a|
  {
    if |a| == 0 {
      assert a + b == b;
    } else {
      assert (a + b)[1..] == a[1..] + b;
      OccurrencesAppend(a[1..], b, c);
    }
  }

  lemma OccurrencesAround(x: string, c: char, y: string)
    ensures Occurrences(x + [c] + y, c) >= 1 + Occurrences(y, c)
  {
    OccurrencesAppend(x + [c], y, c);
    OccurrencesAppend(x, [c], c);
  }

  /** Python's `<` on strings: lexicographic by code point, a proper prefix first. */
  predicate Less(a: string, b: string) {
    if |a| == 0 then |b| > 0
    else if |b| == 0 then false
    else if a[0] != b[0] then a[0] < b[0]
    else Less(a[1..], b[1..])
  }

  lemma {:induction false} LessIrreflexive(a: string)
    ensures !Less(a, a)
    decreases |a|
  {
    if |a| > 0 { LessIrreflexive(a[1..]); }
  }

  lemma {:induction false} LessTransitive(a: string, b: string, c: string)
    requires Less(a, b) && Less(b, c)
    ensures Less(a, c)
    decreases |a|
  {
    if |a| > 0 && |b| > 0 && |c| > 0 && a[0] == b[0] && b[0] == c[0] {
      LessTransitive(a[1..], b[1..], c[1..]);
    }
  }

  lemma {:induction false} LessTotal(a: string, b: string)
    requires a != b
    ensures Less(a, b) || Less(b, a)
    decreases |a|
  {
    if |a| > 0 && |b| > 0 && a[0] == b[0] {
      assert a == [a[0]] + a[1..] && b == [b[0]] + b[1..];
      LessTotal(a[1..], b[1..]);
    }
  }
}
