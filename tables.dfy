/** Row-collection helpers shared by the whole engine: optional values, row filters,
    column sums and the stable sort the data frames apply. */
module Tables {

  /** A nullable cell. */
  datatype Option<+T> = None | Some(value: T) {
    function GetOr(default: T): T {
      match this
      case Some(v) => v
      case None => default
    }
  }

  /** The rows of `s` that satisfy `p`, in their original order (a frame `filter`). */
  function Filter<T>(s: seq<T>, p: T -> bool): (r: seq<T>)
    ensures |r| <= |s|
    ensures forall i :: 0 <= i < |r| ==> r[i] in s && p(r[i])
    ensures forall i :: 0 <= i < |s| && p(s[i]) ==> s[i] in r
  {
    if s == [] then [] else (if p(s[0]) then [s[0]] else []) + Filter(s[1..], p)
  }

  /** No value occurs twice. */
  predicate Unique<T(==)>(s: seq<T>) {
    forall a, b :: 0 <= a < b < |s| ==> s[a] != s[b]
  }

  /** Each value once, in order of first appearance (`unique()`). */
  function Distinct<T(==)>(s: seq<T>): (r: seq<T>)
    ensures forall j :: 0 <= j < |s| ==> s[j] in r
    ensures forall j :: 0 <= j < |r| ==> r[j] in s
    ensures Unique(r)
    decreases |s|
  {
    if s == [] then []
    else
      var d := Distinct(s[..|s| - 1]);
      if s[|s| - 1] in d then d else d + [s[|s| - 1]]
  }

  /** The sum of a column (`pl.col(..).sum()`, which is 0 on an empty frame). */
  function SumBy<T>(s: seq<T>, f: T -> int): int {
    if s == [] then 0 else f(s[0]) + SumBy(s[1..], f)
  }

  lemma {:induction false} FilterAppend<T>(a: seq<T>, b: seq<T>, p: T -> bool)
    ensures Filter(a + b, p) == Filter(a, p) + Filter(b, p)
  {
    if a == [] {
      assert a + b == b;
    } else {
      assert (a + b)[0] == a[0] && (a + b)[1..] == a[1..] + b;
      FilterAppend(a[1..], b, p);
    }
  }

  lemma {:induction false} SumAppend<T>(a: seq<T>, b: seq<T>, f: T -> int)
    ensures SumBy(a + b, f) == SumBy(a, f) + SumBy(b, f)
  {
    if a == [] {
      assert a + b == b;
    } else {
      assert (a + b)[0] == a[0] && (a + b)[1..] == a[1..] + b;
      SumAppend(a[1..], b, f);
    }
  }

  /** The column that is 1 on every row: its sum is the row count (`count()`). */
  function Unit<T>(x: T): int { 1 }

  lemma {:induction false} CountIsSum<T>(s: seq<T>)
    ensures SumBy(s, Unit) == |s|
  {
    if s != [] {
      CountIsSum(s[1..]);
    }
  }

  /** A column that is zero on every row sums to zero. */
  lemma {:induction false} SumZero<T>(s: seq<T>, f: T -> int)
    requires forall i :: 0 <= i < |s| ==> f(s[i]) == 0
    ensures SumBy(s, f) == 0
  {
    if s != [] {
      SumZero(s[1..], f);
    }
  }

  /** Sums are linear: a column that is row by row `g + h - k` sums to `g + h - k`. */
  lemma {:induction false} SumLinear<T>(s: seq<T>, f: T -> int, g: T -> int, h: T -> int, k: T -> int)
    requires forall i :: 0 <= i < |s| ==> f(s[i]) == g(s[i]) + h(s[i]) - k(s[i])
    ensures SumBy(s, f) == SumBy(s, g) + SumBy(s, h) - SumBy(s, k)
  {
    if s != [] {
      SumLinear(s[1..], f, g, h, k);
    }
  }

  /** A filter that every row passes changes nothing. */
  lemma {:induction false} FilterAll<T>(s: seq<T>, p: T -> bool)
    requires forall i :: 0 <= i < |s| ==> p(s[i])
    ensures Filter(s, p) == s
  {
    if s != [] {
      FilterAll(s[1..], p);
    }
  }

  /** A filter that no row passes leaves nothing. */
  lemma {:induction false} FilterNone<T>(s: seq<T>, p: T -> bool)
    requires forall i :: 0 <= i < |s| ==> !p(s[i])
    ensures Filter(s, p) == []
  {
    if s != [] {
      FilterNone(s[1..], p);
    }
  }

  /** Filtering keeps each row as often as it occurs, or drops it entirely. */
  lemma {:induction false} FilterCount<T>(s: seq<T>, p: T -> bool, x: T)
    ensures multiset(Filter(s, p))[x] == if p(x) then multiset(s)[x] else 0
  {
    if s != [] {
      FilterCount(s[1..], p, x);
      assert s == [s[0]] + s[1..];
      var head := if p(s[0]) then [s[0]] else [];
      assert multiset(Filter(s, p)) == multiset(head) + multiset(Filter(s[1..], p));
    }
  }

  /** Two filters of the same rows agree when the predicates agree on those rows. */
  lemma {:induction false} FilterCongruent<T>(s: seq<T>, p: T -> bool, q: T -> bool)
    requires forall x :: x in s ==> (p(x) <==> q(x))
    ensures Filter(s, p) == Filter(s, q)
  {
    if s != [] {
      FilterCongruent(s[1..], p, q);
    }
  }

  /** Two filters in a row are one filter by the conjunction. */
  lemma {:induction false} FilterFilter<T>(s: seq<T>, p: T -> bool, q: T -> bool, r: T -> bool)
    requires forall x :: x in s ==> (r(x) <==> p(x) && q(x))
    ensures Filter(Filter(s, p), q) == Filter(s, r)
  {
    if s != [] {
      FilterFilter(s[1..], p, q, r);
      var head := if p(s[0]) then [s[0]] else [];
      FilterAppend(head, Filter(s[1..], p), q);
      assert Filter(head, q) == if r(s[0]) then [s[0]] else [];
    }
  }

  /** Rows split by a predicate and its negation: the counts and sums add up. */
  lemma {:induction false} FilterSplit<T>(s: seq<T>, p: T -> bool, q: T -> bool, f: T -> int)
    requires forall x :: x in s ==> (q(x) <==> !p(x))
    ensures |s| == |Filter(s, p)| + |Filter(s, q)|
    ensures SumBy(s, f) == SumBy(Filter(s, p), f) + SumBy(Filter(s, q), f)
  {
    if s != [] {
      FilterSplit(s[1..], p, q, f);
      var hp := if p(s[0]) then [s[0]] else [];
      var hq := if q(s[0]) then [s[0]] else [];
      SumAppend(hp, Filter(s[1..], p), f);
      SumAppend(hq, Filter(s[1..], q), f);
    }
  }

  // ---------------------------------------------------------------------------
  // Lexicographic order on text

  /** Code-point lexicographic order, as a frame sorts a text column. */
  predicate StringLe(a: string, b: string)
    decreases |a|
  {
    a == [] || (b != [] && (a[0] < b[0] || (a[0] == b[0] && StringLe(a[1..], b[1..]))))
  }

  lemma {:induction false} StringLeTotal(a: string, b: string)
    ensures StringLe(a, b) || StringLe(b, a)
    decreases |a|
  {
    if a != [] && b != [] && a[0] == b[0] {
      StringLeTotal(a[1..], b[1..]);
    }
  }

  lemma {:induction false} StringLeTransitive(a: string, b: string, c: string)
    requires StringLe(a, b) && StringLe(b, c)
    ensures StringLe(a, c)
    decreases |a|
  {
    if a != [] && a[0] == b[0] && b[0] == c[0] {
      StringLeTransitive(a[1..], b[1..], c[1..]);
    }
  }

  lemma StringOrderIsPreorder()
    ensures TotalPreorder(StringLe)
  {
    forall a, b ensures StringLe(a, b) || StringLe(b, a) {
      StringLeTotal(a, b);
    }
    forall a, b, c | StringLe(a, b) && StringLe(b, c) ensures StringLe(a, c) {
      StringLeTransitive(a, b, c);
    }
  }

  // ---------------------------------------------------------------------------
  // Grouping (`group_by(key).agg(col.sum())`)

  function HasKey<T, K(==)>(key: T -> K, k: K): T -> bool { (x: T) => key(x) == k }

  function KeyIn<T, K(==)>(key: T -> K, ks: seq<K>): T -> bool { (x: T) => key(x) in ks }

  /** A group's sum of a column; 0 when no row has the key. */
  function KeySum<T, K(==)>(s: seq<T>, key: T -> K, f: T -> int, k: K): int {
    SumBy(Filter(s, HasKey(key, k)), f)
  }

  /** The group sums added up over a list of keys. */
  function KeysSum<T, K(==)>(ks: seq<K>, s: seq<T>, key: T -> K, f: T -> int): int {
    if ks == [] then 0 else KeySum(s, key, f, ks[0]) + KeysSum(ks[1..], s, key, f)
  }

  /** Adding up the sums of distinct keys is summing every row whose key is one of them. */
  lemma {:induction false} Regroup<T, K>(ks: seq<K>, s: seq<T>, key: T -> K, f: T -> int)
    requires Unique(ks)
    ensures KeysSum(ks, s, key, f) == SumBy(Filter(s, KeyIn(key, ks)), f)
  {
    if ks == [] {
      FilterNone(s, KeyIn(key, ks));
    } else {
      var k0, rest := ks[0], ks[1..];
      assert Unique(rest) by {
        forall a, b | 0 <= a < b < |rest| ensures rest[a] != rest[b] {
          assert rest[a] == ks[a + 1] && rest[b] == ks[b + 1];
        }
      }
      assert k0 !in rest by {
        forall b | 0 <= b < |rest| ensures rest[b] != k0 {
          assert rest[b] == ks[b + 1];
        }
      }
      Regroup(rest, s, key, f);
      var all := Filter(s, KeyIn(key, ks));
      assert forall x :: x in all ==> key(x) in ks;
      FilterSplit(all, HasKey(key, k0), KeyIn(key, rest), f);
      FilterFilter(s, KeyIn(key, ks), HasKey(key, k0), HasKey(key, k0));
      FilterFilter(s, KeyIn(key, ks), KeyIn(key, rest), KeyIn(key, rest));
    }
  }

  // ---------------------------------------------------------------------------
  // Stable sort

  /** `le` orders every pair of values and is transitive (ties allowed). */
  ghost predicate TotalPreorder<T(!new)>(le: (T, T) -> bool) {
    (forall a, b :: le(a, b) || le(b, a))
    && (forall a, b, c :: le(a, b) && le(b, c) ==> le(a, c))
  }

  ghost predicate SortedBy<T>(s: seq<T>, le: (T, T) -> bool) {
    forall i, j :: 0 <= i < j < |s| ==> le(s[i], s[j])
  }

  /** Puts `x` before the first row it does not follow, so `x` precedes its ties. */
  function Insert<T>(x: T, s: seq<T>, le: (T, T) -> bool): (r: seq<T>)
    ensures |r| == |s| + 1
    ensures multiset(r) == multiset(s) + multiset{x}
  {
    if s == [] || le(x, s[0]) then [x] + s
    else
      assert s == [s[0]] + s[1..];
      [s[0]] + Insert(x, s[1..], le)
  }

  lemma {:induction false} InsertSorted<T(!new)>(x: T, s: seq<T>, le: (T, T) -> bool)
    requires TotalPreorder(le)
    requires SortedBy(s, le)
    ensures SortedBy(Insert(x, s, le), le)
  {
    if s != [] && !le(x, s[0]) {
      assert le(s[0], x);
      InsertSorted(x, s[1..], le);
      var r := Insert(x, s, le);
      var t := Insert(x, s[1..], le);
      assert r == [s[0]] + t;
      forall k | 0 <= k < |t| ensures le(s[0], t[k]) {
        assert t[k] in multiset(t);
        assert t[k] == x || t[k] in s[1..];
      }
    }
  }

  /** Stable insertion sort: rows with equal keys keep their input order. */
  function SortBy<T(!new)>(s: seq<T>, le: (T, T) -> bool): (r: seq<T>)
    requires TotalPreorder(le)
    ensures |r| == |s|
    ensures multiset(r) == multiset(s)
    ensures SortedBy(r, le)
  {
    if s == [] then []
    else
      var t := SortBy(s[1..], le);
      InsertSorted(s[0], t, le);
      assert s == [s[0]] + s[1..];
      Insert(s[0], t, le)
  }

  lemma {:induction false} InsertSum<T>(x: T, s: seq<T>, le: (T, T) -> bool, f: T -> int)
    ensures SumBy(Insert(x, s, le), f) == f(x) + SumBy(s, f)
  {
    if s != [] && !le(x, s[0]) {
      InsertSum(x, s[1..], le, f);
    }
  }

  /** Sorting does not change a column sum. */
  lemma {:induction false} SortSum<T(!new)>(s: seq<T>, le: (T, T) -> bool, f: T -> int)
    requires TotalPreorder(le)
    ensures SumBy(SortBy(s, le), f) == SumBy(s, f)
  {
    if s != [] {
      SortSum(s[1..], le, f);
      InsertSum(s[0], SortBy(s[1..], le), le, f);
    }
  }

  /** Filtering a sorted table keeps it sorted. */
  lemma {:induction false} FilterSorted<T>(s: seq<T>, le: (T, T) -> bool, p: T -> bool)
    requires SortedBy(s, le)
    ensures SortedBy(Filter(s, p), le)
  {
    if s != [] {
      FilterSorted(s[1..], le, p);
      var t := Filter(s[1..], p);
      forall k | 0 <= k < |t| ensures le(s[0], t[k]) {
        assert t[k] in s[1..];
      }
    }
  }

  /** A row of a sorted selection is a selected row of the input. */
  lemma SortedSelectionMember<T(!new)>(s: seq<T>, p: T -> bool, le: (T, T) -> bool, x: T)
    requires TotalPreorder(le)
    requires x in SortBy(Filter(s, p), le)
    ensures x in s && p(x)
  {
    assert x in multiset(SortBy(Filter(s, p), le));
  }

  /** A selected row of the input is a row of the sorted selection. */
  lemma SortedSelectionHas<T(!new)>(s: seq<T>, p: T -> bool, le: (T, T) -> bool, x: T)
    requires TotalPreorder(le)
    requires x in s && p(x)
    ensures x in SortBy(Filter(s, p), le)
  {
    assert x in multiset(Filter(s, p));
  }

  /** Filters of two orderings of the same rows hold the same rows. */
  lemma FilterPermutation<T>(a: seq<T>, b: seq<T>, p: T -> bool)
    requires multiset(a) == multiset(b)
    ensures multiset(Filter(a, p)) == multiset(Filter(b, p))
  {
    forall x ensures multiset(Filter(a, p))[x] == multiset(Filter(b, p))[x] {
      FilterCount(a, p, x);
      FilterCount(b, p, x);
    }
  }

  // ---------------------------------------------------------------------------
  // Keys and left joins

  /** No two rows share a key (a primary-key column). */
  ghost predicate KeysDistinct<T, K>(s: seq<T>, key: T -> K) {
    forall i, j :: 0 <= i < j < |s| ==> key(s[i]) != key(s[j])
  }

  lemma {:induction false} FilterKeepsKeysDistinct<T, K>(s: seq<T>, p: T -> bool, key: T -> K)
    requires KeysDistinct(s, key)
    ensures KeysDistinct(Filter(s, p), key)
  {
    if s != [] {
      FilterKeepsKeysDistinct(s[1..], p, key);
      var t := Filter(s[1..], p);
      forall k | 0 <= k < |t| ensures key(s[0]) != key(t[k]) {
        var m :| 0 <= m < |s[1..]| && s[1..][m] == t[k];
        assert s[1 + m] == t[k];
      }
    }
  }

  lemma {:induction false} InsertKeepsKeysDistinct<T, K>(x: T, s: seq<T>, le: (T, T) -> bool, key: T -> K)
    requires KeysDistinct(s, key)
    requires forall k :: 0 <= k < |s| ==> key(s[k]) != key(x)
    ensures KeysDistinct(Insert(x, s, le), key)
  {
    if s != [] && !le(x, s[0]) {
      InsertKeepsKeysDistinct(x, s[1..], le, key);
      var t := Insert(x, s[1..], le);
      forall k | 0 <= k < |t| ensures key(s[0]) != key(t[k]) {
        assert t[k] in multiset(t);
        assert t[k] == x || t[k] in s[1..];
      }
    }
  }

  /** Sorting a keyed table keeps it keyed. */
  lemma {:induction false} SortKeepsKeysDistinct<T(!new), K>(s: seq<T>, le: (T, T) -> bool, key: T -> K)
    requires TotalPreorder(le)
    requires KeysDistinct(s, key)
    ensures KeysDistinct(SortBy(s, le), key)
  {
    if s != [] {
      SortKeepsKeysDistinct(s[1..], le, key);
      var t := SortBy(s[1..], le);
      forall k | 0 <= k < |t| ensures key(t[k]) != key(s[0]) {
        assert t[k] in multiset(s[1..]);
        var m :| 0 <= m < |s[1..]| && s[1..][m] == t[k];
        assert s[1 + m] == t[k];
      }
      InsertKeepsKeysDistinct(s[0], t, le, key);
    }
  }

  /** Two keyed tables with no key in common concatenate to a keyed table. */
  lemma AppendKeysDistinct<T, K>(a: seq<T>, b: seq<T>, key: T -> K)
    requires KeysDistinct(a, key) && KeysDistinct(b, key)
    requires forall i, j :: 0 <= i < |a| && 0 <= j < |b| ==> key(a[i]) != key(b[j])
    ensures KeysDistinct(a + b, key)
  {
    forall i, j | 0 <= i < j < |a + b| ensures key((a + b)[i]) != key((a + b)[j]) {
      if j < |a| {
      } else if i < |a| {
        assert key(a[i]) != key(b[j - |a|]);
      } else {
        assert key(b[i - |a|]) != key(b[j - |a|]);
      }
    }
  }

  /** The rows of `right` whose key is `k`, in order. */
  function RowsWithKey<R, K(==)>(right: seq<R>, rkey: R -> K, k: K): (hits: seq<R>)
    ensures forall j :: 0 <= j < |hits| ==> hits[j] in right && rkey(hits[j]) == k
    ensures forall j :: 0 <= j < |right| && rkey(right[j]) == k ==> right[j] in hits
    ensures hits == [] <==> forall j :: 0 <= j < |right| ==> rkey(right[j]) != k
  {
    if right == [] then []
    else (if rkey(right[0]) == k then [right[0]] else []) + RowsWithKey(right[1..], rkey, k)
  }

  /** With a keyed right-hand table a key picks out at most one row. */
  lemma {:induction false} RowsWithDistinctKey<R, K>(right: seq<R>, rkey: R -> K, k: K)
    requires KeysDistinct(right, rkey)
    ensures |RowsWithKey(right, rkey, k)| <= 1
  {
    if right != [] {
      RowsWithDistinctKey(right[1..], rkey, k);
      if rkey(right[0]) == k {
        assert forall j :: 0 <= j < |right[1..]| ==> rkey(right[1..][j]) != k by {
          forall j | 0 <= j < |right[1..]| ensures rkey(right[1..][j]) != k {
            assert right[1..][j] == right[1 + j];
          }
        }
        assert RowsWithKey(right[1..], rkey, k) == [];
      }
    }
  }

  /** The rows a left join produces for one left row: one per matching right row, or a
      single row with nothing on the right. */
  function JoinRow<L, R, K(==)>(l: L, right: seq<R>, lkey: L -> K, rkey: R -> K): (rows: seq<(L, Option<R>)>)
    ensures |rows| >= 1
    ensures forall j :: 0 <= j < |rows| ==> rows[j].0 == l
  {
    var hits := RowsWithKey(right, rkey, lkey(l));
    if hits == [] then [(l, None)]
    else seq(|hits|, j requires 0 <= j < |hits| => (l, Some(hits[j])))
  }

  /** `left.join(right, how="left")`: every left row in order, paired with each right row
      of the same key, or with nothing. */
  function LeftJoin<L, R, K(==)>(left: seq<L>, right: seq<R>, lkey: L -> K, rkey: R -> K): (rows: seq<(L, Option<R>)>)
    ensures |rows| >= |left|
  {
    if left == [] then []
    else JoinRow(left[0], right, lkey, rkey) + LeftJoin(left[1..], right, lkey, rkey)
  }

  /** The first right row with key `k`, if any. */
  function Lookup<R, K(==)>(right: seq<R>, rkey: R -> K, k: K): (o: Option<R>)
    ensures o.Some? ==> o.value in right && rkey(o.value) == k
    ensures o.None? ==> forall j :: 0 <= j < |right| ==> rkey(right[j]) != k
  {
    var hits := RowsWithKey(right, rkey, k);
    if hits == [] then None else Some(hits[0])
  }

  /** A left join against a keyed table keeps the left table row for row, each row
      paired with the one right row of its key, or with nothing when there is none. */
  lemma {:induction false} LeftJoinKeyed<L, R, K>(left: seq<L>, right: seq<R>, lkey: L -> K, rkey: R -> K)
    requires KeysDistinct(right, rkey)
    ensures |LeftJoin(left, right, lkey, rkey)| == |left|
    ensures forall k :: 0 <= k < |left| ==>
      LeftJoin(left, right, lkey, rkey)[k] == (left[k], Lookup(right, rkey, lkey(left[k])))
  {
    if left != [] {
      LeftJoinKeyed(left[1..], right, lkey, rkey);
      RowsWithDistinctKey(right, rkey, lkey(left[0]));
      var row := JoinRow(left[0], right, lkey, rkey);
      assert row == [(left[0], Lookup(right, rkey, lkey(left[0])))];
    }
  }
}
