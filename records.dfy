/** The rows of a standardised OHLCV frame and the pandas operations the store applies to
    them: symbol and date filters, duplicate removal on (Symbol, Datetime) keeping the last
    row, and the sort by Symbol then Datetime. */
module Records {
  import opened Wrappers
  import opened Calendar
  import opened Text

  /** One row of a standardised frame (columns Datetime, Symbol, Open, High, Low, Close,
      Volume). */
  datatype Record = Record(symbol: string, datetime: Moment, open: real, high: real, low: real, close: real, volume: int)

  /** The duplicate key of a row. */
  datatype Key = Key(symbol: string, datetime: Moment)

  function KeyOf(r: Record): Key {
    Key(r.symbol, r.datetime)
  }

  function Keys(s: seq<Record>): set<Key> {
    set r | r in s :: KeyOf(r)
  }

  /** At most one row per key. */
  predicate UniqueKeys(s: seq<Record>) {
    forall i, j :: 0 <= i < j < |s| ==> KeyOf(s[i]) != KeyOf(s[j])
  }

  /** `a` is `b` with some rows left out, the rest in their original order. */
  predicate IsSubsequence(a: seq<Record>, b: seq<Record>)
    decreases |b|
  {
    if |a| == 0 then true
    else if |b| == 0 then false
    else (a[0] == b[0] && IsSubsequence(a[1..], b[1..])) || IsSubsequence(a, b[1..])
  }

  lemma {:induction false} SubsequenceMembers(a: seq<Record>, b: seq<Record>)
    requires IsSubsequence(a, b)
    ensures forall r :: r in a ==> r in b
    ensures |a| <= |b|
    decreases |b|
  {
    if |a| > 0 {
      if a[0] == b[0] && IsSubsequence(a[1..], b[1..]) {
        SubsequenceMembers(a[1..], b[1..]);
        assert forall r :: r in a ==> r == a[0] || r in a[1..];
      } else {
        SubsequenceMembers(a, b[1..]);
      }
    }
  }

  lemma {:induction false} SubsequenceTransitive(a: seq<Record>, b: seq<Record>, c: seq<Record>)
    requires IsSubsequence(a, b) && IsSubsequence(b, c)
    ensures IsSubsequence(a, c)
    decreases |c|
  {
    if |a| > 0 {
      if IsSubsequence(b, c[1..]) {
        SubsequenceTransitive(a, b, c[1..]);
      } else if a[0] == b[0] && IsSubsequence(a[1..], b[1..]) {
        SubsequenceTransitive(a[1..], b[1..], c[1..]);
      } else {
        SubsequenceTransitive(a, b[1..], c[1..]);
      }
    }
  }

  lemma {:induction false} SubsequenceReflexive(s: seq<Record>)
    ensures IsSubsequence(s, s)
    decreases |s|
  {
    if |s| > 0 {
      SubsequenceReflexive(s[1..]);
    }
  }

  // ---------------------------------------------------------------- filters

  /** `data[data['Symbol'].isin(symbols)]` */
  function FilterSymbols(s: seq<Record>, symbols: seq<string>): (r: seq<Record>)
    ensures forall x :: x in r <==> x in s && x.symbol in symbols
    ensures forall x :: multiset(r)[x] == if x.symbol in symbols then multiset(s)[x] else 0
    ensures IsSubsequence(r, s)
    decreases |s|
  {
    if |s| == 0 then []
    else
      var rest := FilterSymbols(s[1..], symbols);
      assert s == [s[0]] + s[1..];
      assert forall x :: x in s <==> x == s[0] || x in s[1..];
      if s[0].symbol in symbols then [s[0]] + rest else rest
  }

  /** `data[data['Symbol'] == symbol]` */
  function RowsOfSymbol(s: seq<Record>, symbol: string): (r: seq<Record>)
    ensures forall x :: x in r <==> x in s && x.symbol == symbol
    ensures forall x :: multiset(r)[x] == if x.symbol == symbol then multiset(s)[x] else 0
    ensures IsSubsequence(r, s)
    decreases |s|
  {
    if |s| == 0 then []
    else
      var rest := RowsOfSymbol(s[1..], symbol);
      assert s == [s[0]] + s[1..];
      assert forall x :: x in s <==> x == s[0] || x in s[1..];
      if s[0].symbol == symbol then [s[0]] + rest else rest
  }

  /** `t` lies in the closed interval from `start` to `end`; a missing bound is no bound. */
  predicate WithinBounds(t: Moment, start: Option<Moment>, end: Option<Moment>) {
    (start.Some? ==> Stamp(start.value) <= Stamp(t)) && (end.Some? ==> Stamp(t) <= Stamp(end.value))
  }

  /** Rows whose Datetime lies in the closed interval from `start` to `end`, in order. */
  function RowsBetween(s: seq<Record>, start: Option<Moment>, end: Option<Moment>): (r: seq<Record>)
    ensures forall x :: x in r <==> x in s && WithinBounds(x.datetime, start, end)
    ensures forall x :: multiset(r)[x] == if WithinBounds(x.datetime, start, end) then multiset(s)[x] else 0
    ensures IsSubsequence(r, s)
    decreases |s|
  {
    if |s| == 0 then []
    else
      var rest := RowsBetween(s[1..], start, end);
      assert s == [s[0]] + s[1..];
      assert forall x :: x in s <==> x == s[0] || x in s[1..];
      if WithinBounds(s[0].datetime, start, end) then [s[0]] + rest else rest
  }

  /** `data['Datetime'].max()` over a frame, `None` for no rows. */
  function LatestTime(s: seq<Record>): (r: Option<Moment>)
    ensures r.None? <==> |s| == 0
    ensures r.Some? ==> exists i :: 0 <= i < |s| && s[i].datetime == r.value
    ensures r.Some? ==> forall i :: 0 <= i < |s| ==> Stamp(s[i].datetime) <= Stamp(r.value)
    decreases |s|
  {
    if |s| == 0 then None
    else
      var rest := LatestTime(s[1..]);
      if rest.None? || Stamp(rest.value) <= Stamp(s[0].datetime) then
        Some(s[0].datetime)
      else
        assert forall i :: 1 <= i < |s| ==> s[i] == s[1..][i - 1];
        rest
  }

  // ---------------------------------------------------------------- duplicates

  /** `drop_duplicates(subset=['Symbol', 'Datetime'], keep='last')`: a row survives iff no
      later row has its key. */
  function RemoveDuplicates(s: seq<Record>): (r: seq<Record>)
    decreases |s|
  {
    if |s| == 0 then []
    else if KeyOf(s[0]) in Keys(s[1..]) then RemoveDuplicates(s[1..])
    else [s[0]] + RemoveDuplicates(s[1..])
  }

  /** Row `i` is the last row of `s` with its key. */
  predicate IsLastOfKey(s: seq<Record>, i: int)
    requires 0 <= i < |s|
  {
    forall j :: i < j < |s| ==> KeyOf(s[j]) != KeyOf(s[i])
  }

  /** The position of the last row with key `k`. */
  function LastIndexOfKey(s: seq<Record>, k: Key): (i: nat)
    requires k in Keys(s)
    ensures i < |s| && KeyOf(s[i]) == k && IsLastOfKey(s, i)
    decreases |s|
  {
    var n := |s| - 1;
    if KeyOf(s[n]) == k then n
    else
      var r :| r in s && KeyOf(r) == k;
      assert r in s[..n] by {
        var j :| 0 <= j < |s| && s[j] == r;
        assert j < n && s[..n][j] == r;
      }
      LastIndexOfKey(s[..n], k)
  }

  /** The row pandas keeps for key `k`. */
  function LastOfKey(s: seq<Record>, k: Key): (r: Record)
    requires k in Keys(s)
    ensures r in s && KeyOf(r) == k
  {
    s[LastIndexOfKey(s, k)]
  }

  lemma KeysCons(x: Record, t: seq<Record>)
    ensures Keys([x] + t) == {KeyOf(x)} + Keys(t)
  {
    assert forall r :: r in [x] + t <==> r == x || r in t;
  }

  lemma {:induction false} DedupKeys(s: seq<Record>)
    ensures Keys(RemoveDuplicates(s)) == Keys(s)
    decreases |s|
  {
    if |s| > 0 {
      DedupKeys(s[1..]);
      KeysCons(s[0], s[1..]);
      assert s == [s[0]] + s[1..];
      if KeyOf(s[0]) !in Keys(s[1..]) {
        KeysCons(s[0], RemoveDuplicates(s[1..]));
      }
    }
  }

  /** After duplicate removal every key occurs once. */
  lemma {:induction false} DedupUnique(s: seq<Record>)
    ensures UniqueKeys(RemoveDuplicates(s))
    decreases |s|
  {
    if |s| > 0 {
      DedupUnique(s[1..]);
      DedupKeys(s[1..]);
      var t := RemoveDuplicates(s[1..]);
      if KeyOf(s[0]) !in Keys(s[1..]) {
        var r := [s[0]] + t;
        forall i, j | 0 <= i < j < |r|
          ensures KeyOf(r[i]) != KeyOf(r[j])
        {
          if i == 0 {
            assert r[j] == t[j - 1] && r[j] in t;
          } else {
            assert r[i] == t[i - 1] && r[j] == t[j - 1];
          }
        }
      }
    }
  }

  /** The survivors keep their relative order and are rows of the input. */
  lemma {:induction false} DedupSubsequence(s: seq<Record>)
    ensures IsSubsequence(RemoveDuplicates(s), s)
    ensures |RemoveDuplicates(s)| <= |s|
    decreases |s|
  {
    if |s| > 0 {
      DedupSubsequence(s[1..]);
      var t := RemoveDuplicates(s[1..]);
      if KeyOf(s[0]) !in Keys(s[1..]) {
        assert ([s[0]] + t)[1..] == t;
      } else if |t| > 0 {
        assert IsSubsequence(t, s[1..]);
      }
    }
    SubsequenceMembers(RemoveDuplicates(s), s);
  }

  /** The last row of each key survives. */
  lemma {:induction false} DedupKeepsLast(s: seq<Record>, i: int)
    requires 0 <= i < |s| && IsLastOfKey(s, i)
    ensures s[i] in RemoveDuplicates(s)
    decreases |s|
  {
    if i == 0 {
      assert KeyOf(s[0]) !in Keys(s[1..]);
    } else {
      assert IsLastOfKey(s[1..], i - 1) by {
        forall j | i - 1 < j < |s[1..]|
          ensures KeyOf(s[1..][j]) != KeyOf(s[1..][i - 1])
        {
          assert s[1..][j] == s[j + 1];
        }
      }
      DedupKeepsLast(s[1..], i - 1);
    }
  }

  /** For every key the one surviving row is the last row with that key. */
  lemma DedupRowForKey(s: seq<Record>, k: Key)
    requires k in Keys(s)
    ensures LastOfKey(s, k) in RemoveDuplicates(s)
    ensures forall r :: r in RemoveDuplicates(s) && KeyOf(r) == k ==> r == LastOfKey(s, k)
  {
    var d := RemoveDuplicates(s);
    DedupKeepsLast(s, LastIndexOfKey(s, k));
    DedupUnique(s);
    var w := LastOfKey(s, k);
    forall r | r in d && KeyOf(r) == k
      ensures r == w
    {
      var a :| 0 <= a < |d| && d[a] == r;
      var b :| 0 <= b < |d| && d[b] == w;
      if a < b || b < a {
        assert KeyOf(d[a]) == KeyOf(d[b]);
      }
    }
  }

  /** The rows of `s` from index `i` on that are the last of their key, in index order. */
  function LastRowsFrom(s: seq<Record>, i: nat): seq<Record>
    requires i <= |s|
    decreases |s| - i
  {
    if i == |s| then []
    else if IsLastOfKey(s, i) then [s[i]] + LastRowsFrom(s, i + 1)
    else LastRowsFrom(s, i + 1)
  }

  /** Dropping the first row does not change which later rows are the last of their key. */
  lemma {:induction false} LastRowsShift(s: seq<Record>, i: nat)
    requires 1 <= i <= |s|
    ensures LastRowsFrom(s, i) == LastRowsFrom(s[1..], i - 1)
    decreases |s| - i
  {
    if i < |s| {
      assert forall j :: i <= j < |s| ==> s[1..][j - 1] == s[j];
      assert IsLastOfKey(s, i) == IsLastOfKey(s[1..], i - 1);
      LastRowsShift(s, i + 1);
    }
  }

  /** The first row survives exactly when no later row has its key. */
  lemma FirstIsLastOfKey(s: seq<Record>)
    requires |s| > 0
    ensures IsLastOfKey(s, 0) <==> KeyOf(s[0]) !in Keys(s[1..])
  {
    if KeyOf(s[0]) in Keys(s[1..]) {
      var r :| r in s[1..] && KeyOf(r) == KeyOf(s[0]);
      var j :| 0 <= j < |s| - 1 && s[1..][j] == r;
      assert s[j + 1] == r;
    } else {
      forall j | 0 < j < |s|
        ensures KeyOf(s[j]) != KeyOf(s[0])
      {
        assert s[j] == s[1..][j - 1] && s[j] in s[1..];
      }
    }
  }

  /** Duplicate removal keeps exactly the rows that are the last of their key, at their
      input positions' order: the survivors are fixed as a sequence, not only as values. */
  lemma {:induction false} DedupIsLastRows(s: seq<Record>)
    ensures RemoveDuplicates(s) == LastRowsFrom(s, 0)
    decreases |s|
  {
    if |s| > 0 {
      DedupIsLastRows(s[1..]);
      LastRowsShift(s, 1);
      FirstIsLastOfKey(s);
    }
  }

  /** A frame that already has unique keys is left as it is; hence removing duplicates
      twice is the same as once. */
  lemma {:induction false} DedupOfUnique(s: seq<Record>)
    requires UniqueKeys(s)
    ensures RemoveDuplicates(s) == s
    decreases |s|
  {
    if |s| > 0 {
      assert KeyOf(s[0]) !in Keys(s[1..]);
      assert UniqueKeys(s[1..]) by {
        forall i, j | 0 <= i < j < |s[1..]|
          ensures KeyOf(s[1..][i]) != KeyOf(s[1..][j])
        {
          assert s[1..][i] == s[i + 1] && s[1..][j] == s[j + 1];
        }
      }
      DedupOfUnique(s[1..]);
      assert s == [s[0]] + s[1..];
    }
  }

  lemma DedupIdempotent(s: seq<Record>)
    ensures RemoveDuplicates(RemoveDuplicates(s)) == RemoveDuplicates(s)
  {
    DedupUnique(s);
    DedupOfUnique(RemoveDuplicates(s));
  }

  /** When new rows are appended after old ones, the last row of a key the new rows carry
      comes from the new rows. */
  lemma NewRowsWin(existing: seq<Record>, incoming: seq<Record>, k: Key)
    requires k in Keys(incoming)
    ensures k in Keys(existing + incoming)
    ensures LastOfKey(existing + incoming, k) == LastOfKey(incoming, k)
  {
    var s := existing + incoming;
    var j := LastIndexOfKey(incoming, k);
    assert s[|existing| + j] == incoming[j];
    assert incoming[j] in s;
    var i := LastIndexOfKey(s, k);
  }

  // ---------------------------------------------------------------- sorting

  /** The `sort_values(['Symbol', 'Datetime'])` order: Symbol as text, then time. */
  predicate RowLe(a: Record, b: Record) {
    Less(a.symbol, b.symbol) || (a.symbol == b.symbol && Stamp(a.datetime) <= Stamp(b.datetime))
  }

  lemma RowLeTotal(a: Record, b: Record)
    ensures RowLe(a, b) || RowLe(b, a)
  {
    if a.symbol != b.symbol {
      LessTotal(a.symbol, b.symbol);
    }
  }

  lemma RowLeTransitive(a: Record, b: Record, c: Record)
    requires RowLe(a, b) && RowLe(b, c)
    ensures RowLe(a, c)
  {
    if Less(a.symbol, b.symbol) && Less(b.symbol, c.symbol) {
      LessTransitive(a.symbol, b.symbol, c.symbol);
    }
  }

  predicate Sorted(s: seq<Record>) {
    forall i, j :: 0 <= i < j < |s| ==> RowLe(s[i], s[j])
  }

  /** A row in front of a sorted sequence keeps it sorted iff it precedes every row. */
  lemma SortedCons(x: Record, t: seq<Record>)
    ensures Sorted([x] + t) <==> Sorted(t) && forall y :: y in t ==> RowLe(x, y)
  {
    var r := [x] + t;
    if Sorted(r) {
      forall i, j | 0 <= i < j < |t|
        ensures RowLe(t[i], t[j])
      {
        assert r[i + 1] == t[i] && r[j + 1] == t[j];
      }
      forall y | y in t
        ensures RowLe(x, y)
      {
        var j :| 0 <= j < |t| && t[j] == y;
        assert r[0] == x && r[j + 1] == y;
      }
    }
    if Sorted(t) && forall y :: y in t ==> RowLe(x, y) {
      forall i, j | 0 <= i < j < |r|
        ensures RowLe(r[i], r[j])
      {
        assert r[j] == t[j - 1] && t[j - 1] in t;
        if i > 0 {
          assert r[i] == t[i - 1];
        }
      }
    }
  }

  /** Place `x` in front of the first row it does not follow. */
  function Insert(x: Record, s: seq<Record>): (r: seq<Record>)
    requires Sorted(s)
    ensures Sorted(r)
    ensures multiset(r) == multiset(s) + multiset{x}
    decreases |s|
  {
    if |s| == 0 then [x]
    else if RowLe(x, s[0]) then
      assert forall y :: y in s ==> RowLe(x, y) by {
        forall y | y in s ensures RowLe(x, y) {
          var j :| 0 <= j < |s| && s[j] == y;
          if j > 0 { RowLeTransitive(x, s[0], s[j]); }
        }
      }
      SortedCons(x, s);
      [x] + s
    else
      RowLeTotal(x, s[0]);
      var t := s[1..];
      assert s == [s[0]] + t;
      SortedCons(s[0], t);
      var rest := Insert(x, t);
      assert forall y :: y in rest ==> RowLe(s[0], y) by {
        forall y | y in rest ensures RowLe(s[0], y) {
          assert y in multiset(rest);
          assert y == x || y in t;
        }
      }
      SortedCons(s[0], rest);
      [s[0]] + rest
  }

  /** The sort of the frame by Symbol, then Datetime; `SortStable` shows it is stable. */
  function SortRows(s: seq<Record>): (r: seq<Record>)
    ensures Sorted(r)
    ensures multiset(r) == multiset(s)
    decreases |s|
  {
    if |s| == 0 then []
    else
      assert s == [s[0]] + s[1..];
      Insert(s[0], SortRows(s[1..]))
  }

  /** The rows of `s` with key `k`, in order. */
  function RowsWithKey(s: seq<Record>, k: Key): seq<Record>
    decreases |s|
  {
    if |s| == 0 then []
    else (if KeyOf(s[0]) == k then [s[0]] else []) + RowsWithKey(s[1..], k)
  }

  lemma RowsWithKeyCons(y: Record, t: seq<Record>, k: Key)
    ensures RowsWithKey([y] + t, k) == (if KeyOf(y) == k then [y] else []) + RowsWithKey(t, k)
  {
    assert ([y] + t)[1..] == t;
  }

  /** Inserting `x` puts it before every row with its key. */
  lemma {:induction false} InsertStable(x: Record, s: seq<Record>, k: Key)
    requires Sorted(s)
    ensures RowsWithKey(Insert(x, s), k) == (if KeyOf(x) == k then [x] else []) + RowsWithKey(s, k)
    decreases |s|
  {
    if |s| == 0 {
      RowsWithKeyCons(x, [], k);
    } else if RowLe(x, s[0]) {
      RowsWithKeyCons(x, s, k);
    } else {
      var t := s[1..];
      assert s == [s[0]] + t;
      SortedCons(s[0], t);
      InsertStable(x, t, k);
      RowsWithKeyCons(s[0], Insert(x, t), k);
      RowsWithKeyCons(s[0], t, k);
      assert KeyOf(s[0]) != KeyOf(x);
    }
  }

  /** The sort is stable: rows with equal keys keep their input order. */
  lemma {:induction false} SortStable(s: seq<Record>, k: Key)
    ensures RowsWithKey(SortRows(s), k) == RowsWithKey(s, k)
    decreases |s|
  {
    if |s| > 0 {
      SortStable(s[1..], k);
      InsertStable(s[0], SortRows(s[1..]), k);
    }
  }

  /** Sorting neither adds nor loses rows, so it keeps the key set and key uniqueness. */
  lemma {:induction false} SortKeepsUnique(s: seq<Record>)
    requires UniqueKeys(s)
    ensures UniqueKeys(SortRows(s))
    decreases |s|
  {
    if |s| > 0 {
      var t := s[1..];
      assert s == [s[0]] + t;
      UniqueCons(s[0], t);
      SortKeepsUnique(t);
      var st := SortRows(t);
      assert forall r :: r in st ==> KeyOf(r) != KeyOf(s[0]) by {
        forall r | r in st ensures KeyOf(r) != KeyOf(s[0]) {
          assert r in multiset(st);
          assert r in t;
        }
      }
      InsertKeepsUnique(s[0], st);
    }
  }

  /** A row in front of a sequence keeps keys unique iff the sequence has unique keys and
      none of them is the row's. */
  lemma UniqueCons(x: Record, t: seq<Record>)
    ensures UniqueKeys([x] + t) <==> UniqueKeys(t) && forall y :: y in t ==> KeyOf(y) != KeyOf(x)
  {
    var r := [x] + t;
    if UniqueKeys(r) {
      forall i, j | 0 <= i < j < |t|
        ensures KeyOf(t[i]) != KeyOf(t[j])
      {
        assert r[i + 1] == t[i] && r[j + 1] == t[j];
      }
      forall y | y in t
        ensures KeyOf(y) != KeyOf(x)
      {
        var j :| 0 <= j < |t| && t[j] == y;
        assert r[0] == x && r[j + 1] == y;
      }
    }
    if UniqueKeys(t) && forall y :: y in t ==> KeyOf(y) != KeyOf(x) {
      forall i, j | 0 <= i < j < |r|
        ensures KeyOf(r[i]) != KeyOf(r[j])
      {
        assert r[j] == t[j - 1] && t[j - 1] in t;
        if i > 0 {
          assert r[i] == t[i - 1];
        }
      }
    }
  }

  lemma {:induction false} InsertKeepsUnique(x: Record, s: seq<Record>)
    requires Sorted(s) && UniqueKeys(s)
    requires forall r :: r in s ==> KeyOf(r) != KeyOf(x)
    ensures UniqueKeys(Insert(x, s))
    decreases |s|
  {
    if |s| == 0 {
      assert Insert(x, s) == [x];
    } else if RowLe(x, s[0]) {
      UniqueCons(x, s);
    } else {
      var t := s[1..];
      assert s == [s[0]] + t;
      UniqueCons(s[0], t);
      assert Sorted(t) by {
        forall i, j | 0 <= i < j < |t| ensures RowLe(t[i], t[j]) {
          assert t[i] == s[i + 1] && t[j] == s[j + 1];
        }
      }
      InsertKeepsUnique(x, t);
      var rest := Insert(x, t);
      assert Insert(x, s) == [s[0]] + rest;
      assert forall y :: y in rest ==> KeyOf(y) != KeyOf(s[0]) by {
        forall y | y in rest ensures KeyOf(y) != KeyOf(s[0]) {
          assert y in multiset(rest);
          assert y == x || y in t;
        }
      }
      UniqueCons(s[0], rest);
    }
  }

  /** Equal multisets have the same rows and so the same keys. */
  lemma SameRowsSameKeys(a: seq<Record>, b: seq<Record>)
    requires multiset(a) == multiset(b)
    ensures forall r :: r in a <==> r in b
    ensures Keys(a) == Keys(b)
  {
    assert forall r :: r in a <==> r in multiset(a);
    assert forall r :: r in b <==> r in multiset(b);
  }
}
