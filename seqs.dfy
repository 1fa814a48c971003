/**
 * Sequence operations shared by every query in the system: the WHERE filter,
 * the stable ORDER BY, and the OFFSET/LIMIT (Skip/Take, slice) window.
 * Each store in the repository (SQLite, EF/LINQ, the browser table emulator)
 * composes these three in that order.
 */
module Seqs {
  import opened Wrappers

  // ---------------------------------------------------------------- filter

  /** The elements of `s` that satisfy `p`, in their original order. */
  function Filter<T(!new)>(s: seq<T>, p: T -> bool): (r: seq<T>)
    ensures |r| <= |s|
    ensures forall x :: x in r <==> x in s && p(x)
  {
    if s == [] then []
    else if p(s[0]) then [s[0]] + Filter(s[1..], p)
    else Filter(s[1..], p)
  }

  /** Filtering keeps every occurrence of a kept value and no occurrence of a dropped one. */
  lemma {:induction false} FilterMultiset<T(!new)>(s: seq<T>, p: T -> bool)
    ensures forall x :: multiset(Filter(s, p))[x] == if p(x) then multiset(s)[x] else 0
  {
    if s != [] {
      FilterMultiset(s[1..], p);
      assert s == [s[0]] + s[1..];
    }
  }

  /** Number of elements of `s` that satisfy `p`: what a SQL `COUNT(*)` with the same predicate returns. */
  function Count<T(!new)>(s: seq<T>, p: T -> bool): (n: nat)
    ensures n <= |s|
    ensures n == 0 <==> forall x :: x in s ==> !p(x)
  {
    var r := Filter(s, p);
    assert r != [] ==> r[0] in r;
    |r|
  }

  /** Filtering twice by the same predicate is filtering once. */
  lemma {:induction false} FilterIdempotent<T(!new)>(s: seq<T>, p: T -> bool)
    ensures Filter(Filter(s, p), p) == Filter(s, p)
  {
    if s != [] {
      var rest := Filter(s[1..], p);
      FilterIdempotent(s[1..], p);
      if p(s[0]) {
        assert ([s[0]] + rest)[1..] == rest;
      }
    }
  }

  /** The conjunction of two predicates. */
  function And<T>(p: T -> bool, q: T -> bool): T -> bool
  {
    x => p(x) && q(x)
  }

  /** Filtering by `p` and then by `q` is filtering by their conjunction. */
  lemma {:induction false} FilterConjunction<T(!new)>(s: seq<T>, p: T -> bool, q: T -> bool)
    ensures Filter(Filter(s, p), q) == Filter(s, And(p, q))
  {
    if s != [] {
      var rest := Filter(s[1..], p);
      FilterConjunction(s[1..], p, q);
      if p(s[0]) {
        assert ([s[0]] + rest)[1..] == rest;
      }
    }
  }

  /** Filtering a concatenation filters each part. */
  lemma {:induction false} FilterAppend<T(!new)>(s: seq<T>, t: seq<T>, p: T -> bool)
    ensures Filter(s + t, p) == Filter(s, p) + Filter(t, p)
  {
    if s == [] {
      assert s + t == t;
    } else {
      var u := s + t;
      assert u[0] == s[0] && u[1..] == s[1..] + t;
      FilterAppend(s[1..], t, p);
      if p(s[0]) {
        calc {
          Filter(u, p);
          [s[0]] + Filter(s[1..] + t, p);
          [s[0]] + (Filter(s[1..], p) + Filter(t, p));
          ([s[0]] + Filter(s[1..], p)) + Filter(t, p);
        }
      } else {
        assert Filter(u, p) == Filter(s[1..] + t, p);
      }
    }
  }

  /** A filter whose predicate holds on every element keeps the sequence. */
  lemma {:induction false} FilterKeepsAll<T(!new)>(s: seq<T>, p: T -> bool)
    requires forall x :: x in s ==> p(x)
    ensures Filter(s, p) == s
  {
    if s != [] {
      assert forall x :: x in s[1..] ==> x in s;
      FilterKeepsAll(s[1..], p);
      assert s == [s[0]] + s[1..];
    }
  }

  /** Filters with predicates that agree on every element agree. */
  lemma {:induction false} FilterExtensional<T(!new)>(s: seq<T>, p: T -> bool, q: T -> bool)
    requires forall x :: x in s ==> p(x) == q(x)
    ensures Filter(s, p) == Filter(s, q)
  {
    if s != [] {
      assert forall x :: x in s[1..] ==> x in s;
      FilterExtensional(s[1..], p, q);
    }
  }

  /** A predicate and its negation split a sequence: their counts add up to its length. */
  lemma {:induction false} FilterCountComplement<T(!new)>(s: seq<T>, p: T -> bool, q: T -> bool)
    requires forall x :: q(x) == !p(x)
    ensures |Filter(s, p)| + Count(s, q) == |s|
  {
    if s != [] {
      FilterCountComplement(s[1..], p, q);
    }
  }

  /** `a` is `b` with some elements left out, the rest in their original order. */
  predicate Subseq<T(==)>(a: seq<T>, b: seq<T>)
    decreases |b|
  {
    if a == [] then true
    else if b == [] then false
    else if a[0] == b[0] then Subseq(a[1..], b[1..])
    else Subseq(a, b[1..])
  }

  /** Filtering keeps the surviving elements in their original order. */
  lemma {:induction false} FilterSubseq<T(!new)>(s: seq<T>, p: T -> bool)
    ensures Subseq(Filter(s, p), s)
  {
    if s != [] {
      FilterSubseq(s[1..], p);
      if p(s[0]) {
        assert ([s[0]] + Filter(s[1..], p))[1..] == Filter(s[1..], p);
      }
    }
  }

  /** Apply `f` to every element (Array.prototype.map, LINQ Select, Iterator::map). */
  function Map<A, B>(s: seq<A>, f: A -> B): (r: seq<B>)
    ensures |r| == |s|
    ensures forall i :: 0 <= i < |s| ==> r[i] == f(s[i])
  {
    seq(|s|, i requires 0 <= i < |s| => f(s[i]))
  }

  /** No two rows share a key (a PRIMARY KEY or UNIQUE column). */
  ghost predicate UniqueKeys<R>(rows: seq<R>, key: R -> string)
  {
    forall i, j | 0 <= i < j < |rows| :: key(rows[i]) != key(rows[j])
  }

  /** Some row has key `k`. */
  predicate HasKey<R>(rows: seq<R>, key: R -> string, k: string)
  {
    exists i :: 0 <= i < |rows| && key(rows[i]) == k
  }

  /** Appending a row whose key is new keeps the keys unique. */
  lemma AppendUnique<R>(rows: seq<R>, key: R -> string, row: R)
    requires UniqueKeys(rows, key) && !HasKey(rows, key, key(row))
    ensures UniqueKeys(rows + [row], key)
  {
    var r := rows + [row];
    forall i, j | 0 <= i < j < |r| ensures key(r[i]) != key(r[j]) {
      if j == |rows| {
        assert r[i] == rows[i];
      } else {
        assert r[i] == rows[i] && r[j] == rows[j];
      }
    }
  }

  /** Removing rows keeps the remaining keys unique. */
  lemma {:induction false} FilterUnique<R(!new)>(rows: seq<R>, key: R -> string, p: R -> bool)
    requires UniqueKeys(rows, key)
    ensures UniqueKeys(Filter(rows, p), key)
  {
    if rows != [] {
      var tail := rows[1..];
      assert UniqueKeys(tail, key) by {
        forall i, j | 0 <= i < j < |tail| ensures key(tail[i]) != key(tail[j]) {
          assert tail[i] == rows[i + 1] && tail[j] == rows[j + 1];
        }
      }
      FilterUnique(tail, key, p);
      if p(rows[0]) {
        var ft := Filter(tail, p);
        var r := [rows[0]] + ft;
        forall i, j | 0 <= i < j < |r| ensures key(r[i]) != key(r[j]) {
          if i == 0 {
            assert r[j] == ft[j - 1] && ft[j - 1] in tail;
            var k :| 0 <= k < |tail| && tail[k] == r[j];
            assert rows[k + 1] == r[j];
          } else {
            assert r[i] == ft[i - 1] && r[j] == ft[j - 1];
          }
        }
      }
    }
  }

  /** Rewriting rows without changing their keys keeps the keys unique. */
  lemma MapKeepsUnique<R>(rows: seq<R>, key: R -> string, f: R -> R)
    requires UniqueKeys(rows, key)
    requires forall x :: key(f(x)) == key(x)
    ensures UniqueKeys(Map(rows, f), key)
  {
    var r := Map(rows, f);
    forall i, j | 0 <= i < j < |r| ensures key(r[i]) != key(r[j]) {
      assert key(r[i]) == key(rows[i]) && key(r[j]) == key(rows[j]);
    }
  }

  // ---------------------------------------------------------------- ordering

  /**
   * `lt(a, b)` means "a must come strictly before b". A stable sort is
   * well-defined on `dom` when `lt` is a strict weak order there:
   * irreflexive, transitive, and its incomparability is transitive.
   */
  ghost predicate StrictWeakOn<T>(lt: (T, T) -> bool, dom: seq<T>)
  {
    && (forall a | a in dom :: !lt(a, a))
    && (forall a, b, c | a in dom && b in dom && c in dom && lt(a, b) && lt(b, c) :: lt(a, c))
    && (forall a, b, c | a in dom && b in dom && c in dom && !lt(a, b) && !lt(b, c) :: !lt(a, c))
  }

  /** No element is required to come before an element placed ahead of it. */
  ghost predicate SortedBy<T>(s: seq<T>, lt: (T, T) -> bool)
  {
    forall i, j | 0 <= i < j < |s| :: !lt(s[j], s[i])
  }

  /** Insert `x` ahead of the first element that does not have to precede it (so after its equals). */
  function InsertBy<T>(x: T, s: seq<T>, lt: (T, T) -> bool): (r: seq<T>)
    ensures |r| == |s| + 1
    ensures multiset(r) == multiset(s) + multiset{x}
  {
    if s == [] || !lt(s[0], x) then [x] + s
    else
      assert s == [s[0]] + s[1..];
      [s[0]] + InsertBy(x, s[1..], lt)
  }

  /**
   * Stable insertion sort: the order of Array.prototype.sort, LINQ OrderBy and
   * OrderByDescending. Elements that need not precede each other keep their
   * relative input order.
   */
  function SortBy<T>(s: seq<T>, lt: (T, T) -> bool): (r: seq<T>)
    ensures |r| == |s|
    ensures multiset(r) == multiset(s)
  {
    if s == [] then []
    else
      assert s == [s[0]] + s[1..];
      InsertBy(s[0], SortBy(s[1..], lt), lt)
  }

  /** Incomparability chains on the domain of a strict weak order. */
  lemma NotBeforeChain<T>(lt: (T, T) -> bool, dom: seq<T>, a: T, b: T, c: T)
    requires StrictWeakOn(lt, dom)
    requires a in dom && b in dom && c in dom
    requires !lt(a, b) && !lt(b, c)
    ensures !lt(a, c)
  {
  }

  /** On the domain of a strict weak order, `lt` is asymmetric. */
  lemma Asymmetric<T>(lt: (T, T) -> bool, dom: seq<T>, a: T, b: T)
    requires StrictWeakOn(lt, dom)
    requires a in dom && b in dom
    requires lt(a, b)
    ensures !lt(b, a)
  {
  }

  /** A head that nothing in a sorted tail must precede keeps the sequence sorted. */
  lemma ConsSorted<T>(h: T, s: seq<T>, lt: (T, T) -> bool)
    requires SortedBy(s, lt)
    requires forall y :: y in s ==> !lt(y, h)
    ensures SortedBy([h] + s, lt)
  {
    var r := [h] + s;
    forall i, j | 0 <= i < j < |r| ensures !lt(r[j], r[i]) {
      assert r[j] == s[j - 1];
      if i > 0 {
        assert r[i] == s[i - 1];
      }
    }
  }

  lemma {:induction false} InsertBySorted<T>(x: T, s: seq<T>, lt: (T, T) -> bool, dom: seq<T>)
    requires StrictWeakOn(lt, dom)
    requires x in dom && forall y :: y in s ==> y in dom
    requires SortedBy(s, lt)
    ensures SortedBy(InsertBy(x, s, lt), lt)
  {
    if s == [] || !lt(s[0], x) {
      forall y | y in s ensures !lt(y, x) {
        var k :| 0 <= k < |s| && s[k] == y;
        if k > 0 {
          assert !lt(s[k], s[0]);
          NotBeforeChain(lt, dom, s[k], s[0], x);
        }
      }
      ConsSorted(x, s, lt);
    } else {
      var tail := s[1..];
      assert SortedBy(tail, lt) by {
        forall i, j | 0 <= i < j < |tail| ensures !lt(tail[j], tail[i]) {
          assert tail[i] == s[i + 1] && tail[j] == s[j + 1];
        }
      }
      var rest := InsertBy(x, tail, lt);
      InsertBySorted(x, tail, lt, dom);
      assert s[0] in s;
      Asymmetric(lt, dom, s[0], x);
      forall y | y in rest ensures !lt(y, s[0]) {
        assert y in multiset(rest);
        assert y in multiset(tail) + multiset{x};
        if y != x {
          assert y in multiset(tail);
          var k :| 0 <= k < |tail| && tail[k] == y;
          assert s[k + 1] == y;
        }
      }
      ConsSorted(s[0], rest, lt);
    }
  }

  /** With a strict weak order, the stable sort really is sorted. */
  lemma {:induction false} SortBySorted<T>(s: seq<T>, lt: (T, T) -> bool)
    requires StrictWeakOn(lt, s)
    ensures SortedBy(SortBy(s, lt), lt)
  {
    if s != [] {
      assert forall y :: y in s[1..] ==> y in s;
      SortBySorted(s[1..], lt);
      var t := SortBy(s[1..], lt);
      forall y | y in t ensures y in s {
        assert y in multiset(t);
      }
      InsertBySorted(s[0], t, lt, s);
    }
  }

  /** Filtering an ordered sequence leaves it ordered (`OrderBy(...).Where(...)`). */
  lemma {:induction false} FilterSorted<T(!new)>(s: seq<T>, p: T -> bool, lt: (T, T) -> bool)
    requires SortedBy(s, lt)
    ensures SortedBy(Filter(s, p), lt)
  {
    if s != [] {
      var t := s[1..];
      assert SortedBy(t, lt) by {
        forall i, j | 0 <= i < j < |t| ensures !lt(t[j], t[i]) {
          assert t[j] == s[j + 1] && t[i] == s[i + 1];
        }
      }
      FilterSorted(t, p, lt);
      if p(s[0]) {
        var f := Filter(t, p);
        var r := [s[0]] + f;
        forall i, j | 0 <= i < j < |r| ensures !lt(r[j], r[i]) {
          if i == 0 {
            assert r[j] == f[j - 1] && f[j - 1] in f;
            var k :| 0 <= k < |t| && t[k] == r[j];
            assert t[k] == s[k + 1];
          } else {
            assert r[j] == f[j - 1] && r[i] == f[i - 1];
          }
        }
      }
    }
  }

  /** "`a` comes first when ordering by the integer `key` descending". */
  function Descending<R>(key: R -> int): (R, R) -> bool
  {
    (a: R, b: R) => key(a) > key(b)
  }

  /** "`a` comes first when ordering by the integer `key` ascending". */
  function Ascending<R>(key: R -> int): (R, R) -> bool
  {
    (a: R, b: R) => key(a) < key(b)
  }

  lemma DescendingStrictWeak<R>(key: R -> int, dom: seq<R>)
    ensures StrictWeakOn(Descending(key), dom)
  {
  }

  lemma AscendingStrictWeak<R>(key: R -> int, dom: seq<R>)
    ensures StrictWeakOn(Ascending(key), dom)
  {
  }

  // ---------------------------------------------------------------- decimal digits

  predicate IsDigit(c: char)
  {
    '0' <= c <= '9'
  }

  predicate AllDigits(s: string)
  {
    forall i :: 0 <= i < |s| ==> IsDigit(s[i])
  }

  /** Decimal digits of a natural number, most significant first (JavaScript's `String(n)`). */
  function NatToString(n: nat): (r: string)
    ensures |r| >= 1
    ensures AllDigits(r)
    decreases n
  {
    var d := [(('0' as int) + n % 10) as char];
    if n < 10 then d else NatToString(n / 10) + d
  }

  /** The value of a run of decimal digits, most significant first; the empty run is 0. */
  function DigitsValue(d: string): (n: nat)
    requires AllDigits(d)
    ensures |d| == 1 ==> n == d[0] as int - '0' as int
    decreases |d|
  {
    if d == [] then 0
    else
      assert AllDigits(d[..|d| - 1]) by {
        assert forall i :: 0 <= i < |d| - 1 ==> d[..|d| - 1][i] == d[i];
      }
      10 * DigitsValue(d[..|d| - 1]) + (d[|d| - 1] as int - '0' as int)
  }

  /** The digits of `n` spell `n`. */
  lemma {:induction false} NatToStringValue(n: nat)
    ensures DigitsValue(NatToString(n)) == n
    decreases n
  {
    var s := NatToString(n);
    if n >= 10 {
      NatToStringValue(n / 10);
      assert s[..|s| - 1] == NatToString(n / 10);
    }
  }

  // ---------------------------------------------------------------- windows

  /** Skip the first `n` elements; a non-positive count skips nothing (LINQ Skip, SQLite OFFSET). */
  function Drop<T>(s: seq<T>, n: int): (r: seq<T>)
    ensures |r| == if n <= 0 then |s| else if n >= |s| then 0 else |s| - n
    ensures forall i :: 0 <= i < |r| ==> r[i] == s[i + (if n <= 0 then 0 else n)]
  {
    if n <= 0 then s else if n >= |s| then [] else s[n..]
  }

  /** Keep at most the first `n` elements; a non-positive count keeps nothing (LINQ Take). */
  function Take<T>(s: seq<T>, n: int): (r: seq<T>)
    ensures |r| == if n <= 0 then 0 else if n >= |s| then |s| else n
    ensures forall i :: 0 <= i < |r| ==> r[i] == s[i]
  {
    if n <= 0 then [] else if n >= |s| then s else s[..n]
  }

  /** Any contiguous window of a sorted sequence is sorted. */
  lemma WindowSorted<T>(s: seq<T>, offset: int, limit: int, lt: (T, T) -> bool)
    requires SortedBy(s, lt)
    ensures SortedBy(Drop(s, offset), lt)
    ensures SortedBy(Take(Drop(s, offset), limit), lt)
  {
    var d := Drop(s, offset);
    var off := if offset <= 0 then 0 else offset;
    forall i, j | 0 <= i < j < |d| ensures !lt(d[j], d[i]) {
      assert d[i] == s[i + off] && d[j] == s[j + off];
    }
    var w := Take(d, limit);
    forall i, j | 0 <= i < j < |w| ensures !lt(w[j], w[i]) {
      assert w[i] == d[i] && w[j] == d[j];
    }
  }

  /** Every element of a window comes from the windowed sequence. */
  lemma WindowMembers<T>(s: seq<T>, offset: int, limit: int)
    ensures forall x :: x in Drop(s, offset) ==> x in s
    ensures forall x :: x in Take(Drop(s, offset), limit) ==> x in s
  {
    var d := Drop(s, offset);
    var off := if offset <= 0 then 0 else offset;
    forall x | x in d ensures x in s {
      var i :| 0 <= i < |d| && d[i] == x;
      assert s[i + off] == x;
    }
  }

  /**
   * Page arithmetic: with pages of `size` rows numbered from 1, row `k` of the
   * full result is row `k % size` of page `k / size + 1`, and no other page
   * holds that position.
   */
  lemma PageOfRow<T>(s: seq<T>, size: int, k: int)
    requires size >= 1 && 0 <= k < |s|
    ensures var page := k / size + 1;
            var w := Take(Drop(s, (page - 1) * size), size);
            k % size < |w| && w[k % size] == s[k]
  {
    var q, m := k / size, k % size;
    DivMod(k, size);
    assert (q + 1 - 1) * size == q * size;
  }

  lemma DivMod(k: int, size: int)
    requires size >= 1 && k >= 0
    ensures k / size * size + k % size == k
    ensures 0 <= k % size < size
    ensures k / size >= 0
  {
  }

  // ---------------------------------------------------------------- reversal

  /** The same elements in the opposite order (Array.prototype.reverse). */
  function Reverse<T>(s: seq<T>): (r: seq<T>)
    ensures |r| == |s|
    ensures forall i :: 0 <= i < |s| ==> r[i] == s[|s| - 1 - i]
  {
    if s == [] then [] else Reverse(s[1..]) + [s[0]]
  }

  /** Reversing a sequence sorted by `lt` yields one sorted by the opposite relation. */
  lemma ReverseSorted<T>(s: seq<T>, lt: (T, T) -> bool)
    requires SortedBy(s, lt)
    ensures SortedBy(Reverse(s), (a: T, b: T) => lt(b, a))
  {
    var r := Reverse(s);
    forall i, j | 0 <= i < j < |r| ensures !lt(r[i], r[j]) {
      assert r[i] == s[|s| - 1 - i] && r[j] == s[|s| - 1 - j];
    }
  }

  // ---------------------------------------------------------------- lookup, update and delete by key

  /** `query_row(... WHERE col = ?1)`: the first row with that key, if any. */
  function FirstWithKey<R>(rows: seq<R>, key: R -> string, k: string): (r: Option<R>)
    ensures r.Some? ==> r.value in rows && key(r.value) == k
    ensures r.None? <==> !HasKey(rows, key, k)
  {
    if rows == [] then None
    else if key(rows[0]) == k then Some(rows[0])
    else
      var r := FirstWithKey(rows[1..], key, k);
      assert HasKey(rows, key, k) ==> HasKey(rows[1..], key, k) by {
        if HasKey(rows, key, k) {
          var i :| 0 <= i < |rows| && key(rows[i]) == k;
          assert rows[1..][i - 1] == rows[i];
        }
      }
      r
  }

  /** A row appended under a new key is the one a lookup of that key finds. */
  lemma {:induction false} FindAfterAppend<R>(rows: seq<R>, key: R -> string, row: R)
    requires !HasKey(rows, key, key(row))
    ensures FirstWithKey(rows + [row], key, key(row)) == Some(row)
  {
    if rows == [] {
      assert [row][0] == row;
    } else {
      assert (rows + [row])[0] == rows[0] && (rows + [row])[1..] == rows[1..] + [row];
      assert !HasKey(rows[1..], key, key(row)) by {
        forall i | 0 <= i < |rows[1..]| ensures key(rows[1..][i]) != key(row) {
          assert rows[1..][i] == rows[i + 1];
        }
      }
      FindAfterAppend(rows[1..], key, row);
    }
  }

  /** After deleting an id, a lookup of it finds nothing and every other row is still there. */
  lemma FindAfterDelete<R(!new)>(rows: seq<R>, key: R -> string, id: string)
    ensures FirstWithKey(Filter(rows, KeyIsNot(key, id)), key, id) == None
    ensures forall x :: x in rows && key(x) != id ==> x in Filter(rows, KeyIsNot(key, id))
  {
    var d := Filter(rows, KeyIsNot(key, id));
    DeleteByIdIdempotent(rows, key, id);
    forall i | 0 <= i < |d| ensures key(d[i]) != id {
      assert d[i] in d;
    }
  }

  /** Replacing the row whose key equals `entry`'s by `entry` (a tracked `Update`). */
  function Replace<R>(key: R -> string, entry: R): R -> R
  {
    (x: R) => if key(x) == key(entry) then entry else x
  }

  /** The rows kept when the row(s) with key `id` are deleted (`DELETE ... WHERE id = ?`, `Remove`). */
  function KeyIsNot<R>(key: R -> string, id: string): R -> bool
  {
    (r: R) => key(r) != id
  }

  /** Deleting by id removes exactly the rows with that id; deleting again changes nothing. */
  lemma DeleteByIdIdempotent<R(!new)>(rows: seq<R>, key: R -> string, id: string)
    ensures var d := Filter(rows, KeyIsNot(key, id));
            && (forall x :: x in d <==> x in rows && key(x) != id)
            && Filter(d, KeyIsNot(key, id)) == d
  {
    FilterIdempotent(rows, KeyIsNot(key, id));
  }

  /** Deleting an id no row has leaves the table as it was. */
  lemma DeleteAbsentId<R(!new)>(rows: seq<R>, key: R -> string, id: string)
    requires !HasKey(rows, key, id)
    ensures Filter(rows, KeyIsNot(key, id)) == rows
  {
    forall x | x in rows ensures KeyIsNot(key, id)(x) {
      var i :| 0 <= i < |rows| && rows[i] == x;
    }
    FilterKeepsAll(rows, KeyIsNot(key, id));
  }

  /** With unique keys, deleting a present id removes exactly one row. */
  lemma {:induction false} DeletePresentId<R(!new)>(rows: seq<R>, key: R -> string, id: string)
    requires UniqueKeys(rows, key) && HasKey(rows, key, id)
    ensures |Filter(rows, KeyIsNot(key, id))| == |rows| - 1
  {
    assert forall i, j | 0 <= i < j < |rows[1..]| :: rows[1..][i] == rows[i + 1] && rows[1..][j] == rows[j + 1];
    if key(rows[0]) == id {
      assert !HasKey(rows[1..], key, id) by {
        forall i | 0 <= i < |rows[1..]| ensures key(rows[1..][i]) != id {
          assert rows[1..][i] == rows[i + 1];
        }
      }
      DeleteAbsentId(rows[1..], key, id);
    } else {
      var i :| 0 <= i < |rows| && key(rows[i]) == id;
      assert rows[1..][i - 1] == rows[i];
      DeletePresentId(rows[1..], key, id);
    }
  }

  // ---------------------------------------------------------------- aggregates

  /** Sum of `f` over the elements, accumulated from the left (`Sum`, `reduce`). */
  function SumReal<T>(s: seq<T>, f: T -> real): real
  {
    if s == [] then 0.0 else SumReal(s[..|s| - 1], f) + f(s[|s| - 1])
  }

  lemma {:induction false} SumRealAppend<T>(s: seq<T>, t: seq<T>, f: T -> real)
    ensures SumReal(s + t, f) == SumReal(s, f) + SumReal(t, f)
    decreases |t|
  {
    if t != [] {
      assert (s + t)[..|s + t| - 1] == s + t[..|t| - 1];
      SumRealAppend(s, t[..|t| - 1], f);
    } else {
      assert s + t == s;
    }
  }

  /** Splitting a sequence by any predicate splits its sum: the per-group sums add up to the total. */
  lemma {:induction false} SumRealPartition<T(!new)>(s: seq<T>, f: T -> real, p: T -> bool, q: T -> bool)
    requires forall x :: q(x) == !p(x)
    ensures SumReal(s, f) == SumReal(Filter(s, p), f) + SumReal(Filter(s, q), f)
  {
    if s != [] {
      SumRealPartition(s[1..], f, p, q);
      assert s == [s[0]] + s[1..];
      SumRealAppend([s[0]], s[1..], f);
      assert SumReal([s[0]], f) == f(s[0]) by {
        assert [s[0]][..0] == [];
      }
      if p(s[0]) {
        SumRealAppend([s[0]], Filter(s[1..], p), f);
      } else {
        SumRealAppend([s[0]], Filter(s[1..], q), f);
      }
    }
  }

  /** A sum of values between `lo` and `hi` lies between `|s| * lo` and `|s| * hi`. */
  lemma {:induction false} SumRealBetween<T>(s: seq<T>, f: T -> real, lo: real, hi: real)
    requires forall x :: x in s ==> lo <= f(x) <= hi
    ensures |s| as real * lo <= SumReal(s, f) <= |s| as real * hi
  {
    if s != [] {
      var init := s[..|s| - 1];
      assert forall x :: x in init ==> x in s;
      SumRealBetween(init, f, lo, hi);
      assert s[|s| - 1] in s;
      assert |s| as real * lo == |init| as real * lo + lo;
      assert |s| as real * hi == |init| as real * hi + hi;
    }
  }

  /** The smallest `f` value of a non-empty sequence (`Min`). */
  function MinBy<T>(s: seq<T>, f: T -> real): (m: real)
    requires s != []
    ensures forall x :: x in s ==> m <= f(x)
    ensures exists x :: x in s && m == f(x)
  {
    if |s| == 1 then f(s[0])
    else
      var m := MinBy(s[1..], f);
      assert forall x :: x in s ==> x == s[0] || x in s[1..];
      if f(s[0]) <= m then f(s[0]) else m
  }

  /** The largest `f` value of a non-empty sequence (`Max`). */
  function MaxBy<T>(s: seq<T>, f: T -> real): (m: real)
    requires s != []
    ensures forall x :: x in s ==> f(x) <= m
    ensures exists x :: x in s && m == f(x)
  {
    if |s| == 1 then f(s[0])
    else
      var m := MaxBy(s[1..], f);
      assert forall x :: x in s ==> x == s[0] || x in s[1..];
      if f(s[0]) >= m then f(s[0]) else m
  }

  /** `Average(f)` over a non-empty sequence. */
  function Average<T>(s: seq<T>, f: T -> real): real
    requires s != []
  {
    SumReal(s, f) / (|s| as real)
  }

  /** Dividing by a non-zero number and multiplying back gives the dividend. */
  lemma DivTimes(a: real, n: real)
    requires n != 0.0
    ensures a / n * n == a
  {
  }

  /** The average times the count is the sum. */
  lemma AverageTimesCount<T>(s: seq<T>, f: T -> real)
    requires s != []
    ensures Average(s, f) * |s| as real == SumReal(s, f)
  {
    DivTimes(SumReal(s, f), |s| as real);
  }

  /** A mean of values between `lo` and `hi` lies between them. */
  lemma MeanBetween(total: real, n: real, lo: real, hi: real)
    requires n > 0.0 && n * lo <= total <= n * hi
    ensures lo <= total / n <= hi
  {
    var m := total / n;
    assert m * n == total;
    assert (m - lo) * n >= 0.0;
    assert (hi - m) * n >= 0.0;
  }

  /** The average of values between `lo` and `hi` lies between them. */
  lemma AverageBetween<T>(s: seq<T>, f: T -> real, lo: real, hi: real)
    requires s != []
    requires forall x :: x in s ==> lo <= f(x) <= hi
    ensures lo <= Average(s, f) <= hi
  {
    SumRealBetween(s, f, lo, hi);
    MeanBetween(SumReal(s, f), |s| as real, lo, hi);
  }

  /** The average of a non-empty sequence lies between its minimum and its maximum. */
  lemma AverageBetweenMinMax<T>(s: seq<T>, f: T -> real)
    requires s != []
    ensures MinBy(s, f) <= Average(s, f) <= MaxBy(s, f)
  {
    AverageBetween(s, f, MinBy(s, f), MaxBy(s, f));
  }

  // ---------------------------------------------------------------- paged queries

  /** `Where(p).OrderByDescending(key)` */
  function Query<R(!new)>(rows: seq<R>, p: R -> bool, key: R -> int): seq<R>
  {
    SortBy(Filter(rows, p), Descending(key))
  }

  /** C#'s unchecked `int` arithmetic: the exact result wrapped into [-2^31, 2^31). */
  function Wrap32(x: int): (r: int)
    ensures -0x8000_0000 <= r < 0x8000_0000
    ensures (r - x) % 0x1_0000_0000 == 0
    ensures -0x8000_0000 <= x < 0x8000_0000 ==> r == x
  {
    (x + 0x8000_0000) % 0x1_0000_0000 - 0x8000_0000
  }

  /** `LIMIT limit OFFSET offset` as SQLite reads them: a negative offset is 0, a negative limit is none. */
  function SqlLimitOffset<R>(s: seq<R>, limit: int, offset: int): (r: seq<R>)
    ensures limit >= 0 ==> |r| <= limit
    ensures limit < 0 ==> r == Drop(s, offset)
    ensures limit >= 0 ==> r == Take(Drop(s, offset), limit)
  {
    if limit < 0 then Drop(s, offset) else Take(Drop(s, offset), limit)
  }

  /**
   * `Skip((page - 1) * pageSize).Take(pageSize)` as Entity Framework runs it on
   * SQLite: the offset is computed in 32-bit `int` and the pair becomes
   * `LIMIT pageSize OFFSET offset`.
   */
  function Page<T>(s: seq<T>, page: int, pageSize: int): seq<T>
  {
    SqlLimitOffset(s, pageSize, Wrap32(Wrap32(page - 1) * pageSize))
  }

  /** The query holds exactly the matching rows, newest first, and `Total` counts them. */
  lemma QuerySound<R(!new)>(rows: seq<R>, p: R -> bool, key: R -> int)
    ensures var q := Query(rows, p, key);
            && (forall x :: x in q <==> x in rows && p(x))
            && |q| == Count(rows, p)
            && SortedBy(q, Descending(key))
  {
    var f := Filter(rows, p);
    var q := SortBy(f, Descending(key));
    DescendingStrictWeak(key, f);
    SortBySorted(f, Descending(key));
    forall x ensures x in q <==> x in f {
      assert x in q <==> x in multiset(q);
      assert x in f <==> x in multiset(f);
    }
  }

  /**
   * Every page is a newest-first run of matching rows, no longer than a
   * non-negative page size; a negative page size (`LIMIT -1`) gives every row
   * from the offset on.
   */
  lemma PageSound<R(!new)>(rows: seq<R>, p: R -> bool, key: R -> int, page: int, pageSize: int)
    ensures var q := Query(rows, p, key);
            var w := Page(q, page, pageSize);
            && (forall x :: x in w ==> x in rows && p(x))
            && SortedBy(w, Descending(key))
            && (pageSize >= 0 ==> |w| <= pageSize)
            && (pageSize < 0 ==> w == Drop(q, Wrap32(Wrap32(page - 1) * pageSize)))
  {
    var q := Query(rows, p, key);
    var offset := Wrap32(Wrap32(page - 1) * pageSize);
    QuerySound(rows, p, key);
    WindowSorted(q, offset, pageSize, Descending(key));
    WindowMembers(q, offset, pageSize);
  }

  /** A page whose offset fits in an `int` is the plain window of `pageSize` rows after `(page - 1) * pageSize`. */
  lemma PageInRange<T>(s: seq<T>, page: int, pageSize: int)
    requires 1 <= page && 0 <= pageSize && (page - 1) * pageSize < 0x8000_0000
    ensures Page(s, page, pageSize) == Take(Drop(s, (page - 1) * pageSize), pageSize)
  {
    var n := page - 1;
    var offset := n * pageSize;
    assert 0 <= offset by {
      assert n >= 0;
    }
    if pageSize == 0 {
      assert Wrap32(n) * pageSize == 0;
    } else {
      assert n < 0x8000_0000 by {
        assert offset >= n;
      }
      assert Wrap32(n) == n;
    }
    assert Wrap32(offset) == offset;
  }

  /** A page number so large that the 32-bit offset wraps to a negative one reads the first rows again. */
  lemma PageOffsetWraps<T>(s: seq<T>)
    ensures Page(s, 0x4000_0000, 4) == Take(s, 4)
  {
    assert Wrap32(0x4000_0000 - 1) == 0x3FFF_FFFF;
    assert Wrap32(0x3FFF_FFFF * 4) == -4;
  }
}
