/** Small value-level helpers shared by the Eventify model: nullable values,
    the JavaScript `||`/`??` numeric default, JavaScript `Array.prototype.slice`,
    decimal rendering of timestamps, substring search and a stable sort. */
module Common {

  /** A nullable / possibly-undefined value. */
  datatype Option<+T> = None | Some(value: T) {
    function GetOr(default: T): T {
      match this
      case Some(v) => v
      case None => default
    }
  }

  /** `x || 0` and `x ?? 0` on a nullable integer column: null becomes 0. */
  function OrZero(x: Option<int>): (r: int)
    ensures x.None? ==> r == 0
    ensures x.Some? ==> r == x.value
  {
    x.GetOr(0)
  }

  function Min(a: int, b: int): int { if a <= b then a else b }
  function Max(a: int, b: int): int { if a >= b then a else b }

  /** `String.prototype.startsWith` / a raw string prefix test. */
  predicate StartsWith(s: string, prefix: string) {
    |prefix| <= |s| && s[..|prefix|] == prefix
  }

  /** `s.includes(sub)`: `sub` occurs somewhere in `s`. */
  predicate Contains(s: string, sub: string) {
    exists i :: 0 <= i <= |s| && sub <= s[i..]
  }

  /** `s.indexOf(pat)`: the first position where `pat` occurs. */
  function IndexOf(s: string, pat: string): (r: Option<nat>)
    ensures r.Some? ==> r.value + |pat| <= |s| && pat <= s[r.value..]
                        && forall j :: 0 <= j < r.value ==> !(pat <= s[j..])
    ensures r.None? ==> forall j :: 0 <= j <= |s| ==> !(pat <= s[j..])
  {
    if pat <= s then Some(0)
    else if s == [] then None
    else
      var rest := IndexOf(s[1..], pat);
      assert forall j :: 1 <= j <= |s| ==> s[1..][j - 1..] == s[j..];
      match rest
      case None => None
      case Some(i) => Some(i + 1)
  }

  /** The position `s.find(p)` stops at: the first element satisfying `p`,
      or none when no element does. */
  function FindIndex<T>(s: seq<T>, p: T -> bool): (r: Option<nat>)
    ensures r.Some? ==> r.value < |s| && p(s[r.value]) && forall j :: 0 <= j < r.value ==> !p(s[j])
    ensures r.None? ==> forall j :: 0 <= j < |s| ==> !p(s[j])
  {
    if s == [] then None
    else if p(s[0]) then Some(0)
    else
      match FindIndex(s[1..], p)
      case None => None
      case Some(i) => Some(i + 1)
  }

  /** `s.replace(pat, "")` for a string pattern: the first occurrence of
      `pat` is cut out; without one, `s` is returned as it is. */
  function RemoveFirst(s: string, pat: string): string {
    match IndexOf(s, pat)
    case None => s
    case Some(i) => s[..i] + s[i + |pat|..]
  }

  /** A string that starts with `pat` loses exactly that prefix; a string
      without `pat` is unchanged; otherwise exactly `|pat|` characters go. */
  lemma RemoveFirstCorrect(s: string, pat: string)
    ensures StartsWith(s, pat) ==> RemoveFirst(s, pat) == s[|pat|..]
    ensures !Contains(s, pat) ==> RemoveFirst(s, pat) == s
    ensures Contains(s, pat) ==> |RemoveFirst(s, pat)| == |s| - |pat|
  {
    if StartsWith(s, pat) {
      assert pat <= s;
    }
  }

  /** The index where JavaScript's `slice` starts or stops for a (possibly
      negative) argument `k` on a sequence of length `n`. */
  function SliceIndex(k: int, n: nat): (r: nat)
    ensures r <= n
    ensures 0 <= k <= n ==> r == k
    ensures k < 0 && n + k >= 0 ==> r == n + k
  {
    if k < 0 then (if n + k < 0 then 0 else n + k) else if k > n then n else k
  }

  /** `s.slice(start, end)` with JavaScript's clamping and negative indices. */
  function JsSlice<T>(s: seq<T>, start: int, end: int): (r: seq<T>)
    ensures |r| <= |s|
    ensures 0 <= start <= end <= |s| ==> r == s[start..end]
    ensures 0 <= start <= |s| < end ==> r == s[start..]
    ensures 0 <= end <= start ==> r == []
  {
    var i, j := SliceIndex(start, |s|), SliceIndex(end, |s|);
    if i < j then s[i..j] else []
  }

  /** The decimal digit for 0..9. */
  function DigitChar(d: nat): (c: char)
    requires d < 10
    ensures '0' <= c <= '9'
  {
    ('0' as int + d) as char
  }

  function DigitValue(c: char): nat { if '0' <= c <= '9' then (c - '0') as nat else 0 }

  /** `n.toString()` for a non-negative integer. */
  function Decimal(n: nat): (s: string)
    ensures 1 <= |s|
    ensures forall i :: 0 <= i < |s| ==> '0' <= s[i] <= '9'
    decreases n
  {
    if n < 10 then [DigitChar(n)] else Decimal(n / 10) + [DigitChar(n % 10)]
  }

  /** The number a string of decimal digits denotes. */
  function DecimalValue(s: string): nat
    decreases |s|
  {
    if s == [] then 0 else DecimalValue(s[..|s| - 1]) * 10 + DigitValue(s[|s| - 1])
  }

  function Pow10(k: nat): (r: nat)
    ensures r >= 1
  {
    if k == 0 then 1 else 10 * Pow10(k - 1)
  }

  lemma {:induction false} DecimalRoundTrip(n: nat)
    ensures DecimalValue(Decimal(n)) == n
    decreases n
  {
    var s := Decimal(n);
    if n >= 10 {
      DecimalRoundTrip(n / 10);
      assert s[..|s| - 1] == Decimal(n / 10);
      assert DigitValue(s[|s| - 1]) == n % 10;
    }
  }

  /** `n.toString()` has as many digits as `n` needs: `n < 10^len`, and a
      leading digit that is not a redundant zero. */
  lemma {:induction false} DecimalLength(n: nat)
    ensures n < Pow10(|Decimal(n)|)
    ensures |Decimal(n)| > 1 ==> Pow10(|Decimal(n)| - 1) <= n
    decreases n
  {
    if n >= 10 {
      DecimalLength(n / 10);
      assert |Decimal(n)| == |Decimal(n / 10)| + 1;
      assert n == 10 * (n / 10) + n % 10;
    }
  }

  lemma {:induction false} Pow10Mono(a: nat, b: nat)
    requires a <= b
    ensures Pow10(a) <= Pow10(b)
    decreases b
  {
    if a < b {
      Pow10Mono(a, b - 1);
    }
  }

  /** The last `k` digits of a digit string denote the number modulo 10^k. */
  lemma {:induction false} DecimalSuffixValue(s: string, k: nat)
    requires k <= |s|
    ensures DecimalValue(s[|s| - k..]) == DecimalValue(s) % Pow10(k)
    decreases k
  {
    if k == 0 {
      assert s[|s|..] == [];
    } else {
      var init := s[..|s| - 1];
      var d := DigitValue(s[|s| - 1]);
      assert d < 10;
      DecimalSuffixValue(init, k - 1);
      var t := s[|s| - k..];
      assert t[..|t| - 1] == init[|init| - (k - 1)..];
      assert t[|t| - 1] == s[|s| - 1];
      var a := DecimalValue(init);
      var p := Pow10(k - 1);
      // DecimalValue(t) == (a % p) * 10 + d  and  DecimalValue(s) == a * 10 + d
      ModTimesTen(a, p, d);
    }
  }

  lemma ModTimesTen(a: nat, p: nat, d: nat)
    requires p >= 1 && d < 10
    ensures (a % p) * 10 + d == (a * 10 + d) % (10 * p)
  {
    var q, m := a / p, a % p;
    var qp := q * p;
    assert a == qp + m;
    assert m <= p - 1;
    assert a * 10 + d == qp * 10 + (m * 10 + d);
    assert qp * 10 == q * (10 * p);
    ModUnique(a * 10 + d, q, 10 * p, m * 10 + d);
  }

  /** Euclidean division is unique: a quotient and an in-range remainder fix `x % n`. */
  lemma ModUnique(x: int, q: int, n: int, r: int)
    requires n > 0 && 0 <= r < n && x == q * n + r
    ensures x % n == r
  {
    var q', r' := x / n, x % n;
    assert x == q' * n + r';
    assert (q - q') * n == r' - r;
    if q > q' {
      MulAtLeast(q - q', n);
    } else if q < q' {
      MulAtLeast(q' - q, n);
    }
  }

  /** Two numbers less than `n` apart have different remainders modulo `n`. */
  lemma ModDistinct(a: int, b: int, n: int)
    requires n > 0 && a < b < a + n
    ensures a % n != b % n
  {
    var qa, qb := a / n, b / n;
    var k := qb - qa;
    assert a == qa * n + a % n;
    assert b == qb * n + b % n;
    assert qb * n - qa * n == k * n;
    if k >= 1 {
      MulAtLeast(k, n);
    } else {
      MulNonPositive(k, n);
    }
  }

  lemma MulNonPositive(k: int, n: int)
    requires k <= 0 && n > 0
    ensures k * n <= 0
  {
  }

  lemma MulAtLeast(k: int, n: int)
    requires k >= 1 && n > 0
    ensures k * n >= n
  {
    var j := k - 1;
    assert k * n == j * n + n;
  }

  /** Whether `s` is in non-decreasing order of `rank`. */
  ghost predicate SortedBy<T>(s: seq<T>, rank: T -> int) {
    forall i, j :: 0 <= i < j < |s| ==> rank(s[i]) <= rank(s[j])
  }

  /** Stable insertion: `x` goes before the first element whose rank is not
      smaller than its own, so it precedes elements of equal rank. */
  function InsertByRank<T>(x: T, s: seq<T>, rank: T -> int): (r: seq<T>)
    ensures |r| == |s| + 1
  {
    if s == [] || rank(x) <= rank(s[0]) then [x] + s
    else [s[0]] + InsertByRank(x, s[1..], rank)
  }

  lemma {:induction false} InsertByRankMultiset<T>(x: T, s: seq<T>, rank: T -> int)
    ensures multiset(InsertByRank(x, s, rank)) == multiset(s) + multiset{x}
  {
    if s != [] && rank(x) > rank(s[0]) {
      InsertByRankMultiset(x, s[1..], rank);
      assert s == [s[0]] + s[1..];
    }
  }

  lemma {:induction false} InsertByRankSorted<T>(x: T, s: seq<T>, rank: T -> int)
    requires SortedBy(s, rank)
    ensures SortedBy(InsertByRank(x, s, rank), rank)
    ensures forall i :: 0 <= i < |s| + 1 ==>
      var y := InsertByRank(x, s, rank)[i]; y == x || (s != [] && rank(s[0]) <= rank(y))
  {
    var r := InsertByRank(x, s, rank);
    if s != [] && rank(x) > rank(s[0]) {
      InsertByRankSorted(x, s[1..], rank);
      var tail := InsertByRank(x, s[1..], rank);
      assert r == [s[0]] + tail;
      forall i | 0 <= i < |tail|
        ensures rank(s[0]) <= rank(tail[i])
      {
        if tail[i] != x {
          assert s[1..] != [] && rank(s[1]) <= rank(tail[i]);
        }
      }
    }
  }

  /** A stable sort of `s` in non-decreasing `rank`; it stands for the
      library sort (`Array.prototype.sort`, which is stable) and for the
      backend's `order(...)`. */
  function SortByRank<T>(s: seq<T>, rank: T -> int): (r: seq<T>)
    ensures |r| == |s|
  {
    if s == [] then [] else InsertByRank(s[0], SortByRank(s[1..], rank), rank)
  }

  /** The sort returns a rearrangement of its input in non-decreasing rank. */
  lemma {:induction false} SortByRankCorrect<T>(s: seq<T>, rank: T -> int)
    ensures multiset(SortByRank(s, rank)) == multiset(s)
    ensures SortedBy(SortByRank(s, rank), rank)
  {
    if s != [] {
      SortByRankCorrect(s[1..], rank);
      InsertByRankMultiset(s[0], SortByRank(s[1..], rank), rank);
      InsertByRankSorted(s[0], SortByRank(s[1..], rank), rank);
      assert s == [s[0]] + s[1..];
    }
  }

  /** The rows a backend `range(offset, offset + limit - 1)` returns from an
      ordered result: at most `limit` consecutive rows starting at `offset`. */
  function Window<T>(s: seq<T>, offset: nat, limit: nat): (r: seq<T>)
    ensures |r| <= limit
    ensures offset + limit <= |s| ==> r == s[offset..offset + limit]
    ensures offset <= |s| < offset + limit ==> r == s[offset..]
    ensures |s| <= offset ==> r == []
  {
    if |s| <= offset then [] else s[offset..Min(|s|, offset + limit)]
  }

  /** A window holds `limit` rows, or as many as remain after `offset` when fewer. */
  lemma WindowLength<T>(s: seq<T>, offset: nat, limit: nat)
    ensures |Window(s, offset, limit)| == Min(limit, Max(0, |s| - offset))
  {
  }

  /** The first `k` pages of `limit` rows each, one after another. */
  function Pages<T>(s: seq<T>, limit: nat, k: nat): seq<T>
  {
    if k == 0 then [] else Pages(s, limit, k - 1) + Window(s, (k - 1) * limit, limit)
  }

  /** Reading pages 1..k in turn yields exactly the first `k * limit` rows,
      with nothing skipped or repeated. */
  lemma {:induction false} PagesArePrefix<T>(s: seq<T>, limit: nat, k: nat)
    ensures Pages(s, limit, k) == s[..Min(|s|, k * limit)]
  {
    if k > 0 {
      PagesArePrefix(s, limit, k - 1);
      var o := (k - 1) * limit;
      assert k * limit == o + limit;
      PrefixThenWindow(s, o, limit);
    }
  }

  /** The first `o` rows followed by the window at `o` are the first `o + limit` rows. */
  lemma PrefixThenWindow<T>(s: seq<T>, o: nat, limit: nat)
    ensures s[..Min(|s|, o)] + Window(s, o, limit) == s[..Min(|s|, o + limit)]
  {
    if |s| > o {
      assert s[..Min(|s|, o + limit)] == s[..o] + s[o..Min(|s|, o + limit)];
    }
  }

  /** `a` is obtained from `b` by dropping elements (order kept). */
  predicate IsSubsequence<T(==)>(a: seq<T>, b: seq<T>)
    decreases |b|
  {
    if a == [] then true
    else if b == [] then false
    else if a[0] == b[0] then IsSubsequence(a[1..], b[1..])
    else IsSubsequence(a, b[1..])
  }

  /** `arr.filter(keep)`. */
  function Filter<T>(s: seq<T>, keep: T -> bool): (r: seq<T>)
    ensures |r| <= |s|
    ensures forall x :: x in r ==> x in s && keep(x)
    ensures forall x :: x in s && keep(x) ==> x in r
  {
    if s == [] then []
    else if keep(s[0]) then [s[0]] + Filter(s[1..], keep)
    else Filter(s[1..], keep)
  }

  lemma {:induction false} FilterAppend<T>(a: seq<T>, b: seq<T>, keep: T -> bool)
    ensures Filter(a + b, keep) == Filter(a, keep) + Filter(b, keep)
  {
    if a == [] {
      assert a + b == b;
    } else {
      assert (a + b)[0] == a[0];
      assert (a + b)[1..] == a[1..] + b;
      FilterAppend(a[1..], b, keep);
    }
  }

  /** Two predicates that agree on every element filter alike. */
  lemma {:induction false} FilterCongruent<T>(s: seq<T>, k1: T -> bool, k2: T -> bool)
    requires forall i :: 0 <= i < |s| ==> k1(s[i]) == k2(s[i])
    ensures Filter(s, k1) == Filter(s, k2)
  {
    if s != [] {
      FilterCongruent(s[1..], k1, k2);
    }
  }

  lemma {:induction false} FilterKeepsAll<T>(s: seq<T>, keep: T -> bool)
    requires forall i :: 0 <= i < |s| ==> keep(s[i])
    ensures Filter(s, keep) == s
  {
    if s != [] {
      FilterKeepsAll(s[1..], keep);
    }
  }

  lemma {:induction false} FilterDropsAll<T>(s: seq<T>, keep: T -> bool)
    requires forall i :: 0 <= i < |s| ==> !keep(s[i])
    ensures Filter(s, keep) == []
  {
    if s != [] {
      FilterDropsAll(s[1..], keep);
    }
  }

  lemma {:induction false} FilterIsSubsequence<T>(s: seq<T>, keep: T -> bool)
    ensures IsSubsequence(Filter(s, keep), s)
  {
    if s != [] {
      FilterIsSubsequence(s[1..], keep);
      if !keep(s[0]) {
        SubsequenceOfTail(Filter(s[1..], keep), s);
      }
    }
  }

  lemma {:induction false} SubsequenceOfTail<T>(a: seq<T>, b: seq<T>)
    requires b != [] && IsSubsequence(a, b[1..])
    ensures IsSubsequence(a, b)
    decreases |a| + |b|
  {
    if a != [] && a[0] == b[0] {
      // IsSubsequence(a, b) reduces to IsSubsequence(a[1..], b[1..])
      SubsequenceDropHead(a, b[1..]);
    }
  }

  lemma {:induction false} SubsequenceDropHead<T>(a: seq<T>, b: seq<T>)
    requires a != [] && IsSubsequence(a, b)
    ensures IsSubsequence(a[1..], b)
    decreases |a| + |b|
  {
    if a[0] == b[0] {
      SubsequenceOfTail(a[1..], b);
    } else {
      SubsequenceDropHead(a, b[1..]);
      SubsequenceOfTail(a[1..], b);
    }
  }

  /** Sum of a sequence of nullable integers with null counted as 0, the
      way a `reduce((sum, x) => sum + (x ?? 0), 0)` sees it. */
  function SumOrZero(xs: seq<Option<int>>): int
  {
    if xs == [] then 0 else OrZero(xs[0]) + SumOrZero(xs[1..])
  }

  lemma {:induction false} SumOrZeroAppend(a: seq<Option<int>>, b: seq<Option<int>>)
    ensures SumOrZero(a + b) == SumOrZero(a) + SumOrZero(b)
  {
    if a == [] {
      assert a + b == b;
    } else {
      assert (a + b)[0] == a[0];
      assert (a + b)[1..] == a[1..] + b;
      SumOrZeroAppend(a[1..], b);
    }
  }
}
