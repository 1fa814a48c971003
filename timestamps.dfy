/**
 * Timestamps are stored and compared as text. SQLite compares TEXT with the
 * BINARY collation, the byte order of the UTF-8 encoding, which is code point
 * order; the ISO-8601 strings produced by `toISOString()` sort
 * chronologically under it (section 5.1 of RFC 3339). `StrLt` is that order
 * on `string`, and the "created_at" windows and orderings of the SQLite-backed
 * store are stated with it.
 */
module Timestamps {
  import Seqs

  /** `a` sorts strictly before `b`: a proper prefix, or smaller at the first difference. */
  predicate StrLt(a: string, b: string)
  {
    if |b| == 0 then false
    else if |a| == 0 then true
    else if a[0] != b[0] then a[0] < b[0]
    else StrLt(a[1..], b[1..])
  }

  predicate StrLe(a: string, b: string)
  {
    a == b || StrLt(a, b)
  }

  lemma {:induction false} StrLtIrreflexive(a: string)
    ensures !StrLt(a, a)
  {
    if |a| > 0 {
      StrLtIrreflexive(a[1..]);
    }
  }

  lemma {:induction false} StrLtTransitive(a: string, b: string, c: string)
    requires StrLt(a, b) && StrLt(b, c)
    ensures StrLt(a, c)
  {
    if |a| > 0 && a[0] == b[0] && b[0] == c[0] {
      StrLtTransitive(a[1..], b[1..], c[1..]);
    }
  }

  /** Any two distinct strings are ordered one way or the other. */
  lemma {:induction false} StrLtTotal(a: string, b: string)
    ensures a == b || StrLt(a, b) || StrLt(b, a)
  {
    if |a| > 0 && |b| > 0 && a[0] == b[0] {
      StrLtTotal(a[1..], b[1..]);
      if a[1..] == b[1..] {
        assert a == [a[0]] + a[1..] && b == [b[0]] + b[1..];
      }
    }
  }

  lemma StrLtAsymmetric(a: string, b: string)
    requires StrLt(a, b)
    ensures !StrLt(b, a)
  {
    if StrLt(b, a) {
      StrLtTransitive(a, b, a);
      StrLtIrreflexive(a);
    }
  }

  /** `!StrLt(b, a)` is exactly `StrLe(a, b)`: the order is total. */
  lemma NotLtIsLe(a: string, b: string)
    ensures !StrLt(b, a) <==> StrLe(a, b)
  {
    StrLtTotal(a, b);
    if StrLt(a, b) {
      StrLtAsymmetric(a, b);
    }
    if a == b {
      StrLtIrreflexive(a);
    }
  }

  lemma StrLeTransitive(a: string, b: string, c: string)
    requires StrLe(a, b) && StrLe(b, c)
    ensures StrLe(a, c)
  {
    if a != b && b != c {
      StrLtTransitive(a, b, c);
    }
  }

  /** "`a` comes first when ordering by `stamp` descending" (`ORDER BY created_at DESC`). */
  function NewestFirst<R>(stamp: R -> string): (R, R) -> bool
  {
    (a: R, b: R) => StrLt(stamp(b), stamp(a))
  }

  /** "`a` comes first when ordering by `stamp` ascending". */
  function OldestFirst<R>(stamp: R -> string): (R, R) -> bool
  {
    (a: R, b: R) => StrLt(stamp(a), stamp(b))
  }

  /** Ordering rows newest first is a strict weak order on any set of rows. */
  lemma NewestFirstStrictWeak<R>(stamp: R -> string, dom: seq<R>)
    ensures Seqs.StrictWeakOn(NewestFirst(stamp), dom)
  {
    var lt := NewestFirst(stamp);
    forall a | a in dom ensures !lt(a, a) {
      StrLtIrreflexive(stamp(a));
    }
    forall a, b, c | a in dom && b in dom && c in dom && lt(a, b) && lt(b, c) ensures lt(a, c) {
      StrLtTransitive(stamp(c), stamp(b), stamp(a));
    }
    forall a, b, c | a in dom && b in dom && c in dom && !lt(a, b) && !lt(b, c) ensures !lt(a, c) {
      NotLtIsLe(stamp(a), stamp(b));
      NotLtIsLe(stamp(b), stamp(c));
      StrLeTransitive(stamp(a), stamp(b), stamp(c));
      NotLtIsLe(stamp(a), stamp(c));
    }
  }

  /** Ordering rows oldest first is a strict weak order on any set of rows. */
  lemma OldestFirstStrictWeak<R>(stamp: R -> string, dom: seq<R>)
    ensures Seqs.StrictWeakOn(OldestFirst(stamp), dom)
  {
    var lt := OldestFirst(stamp);
    forall a | a in dom ensures !lt(a, a) {
      StrLtIrreflexive(stamp(a));
    }
    forall a, b, c | a in dom && b in dom && c in dom && lt(a, b) && lt(b, c) ensures lt(a, c) {
      StrLtTransitive(stamp(a), stamp(b), stamp(c));
    }
    forall a, b, c | a in dom && b in dom && c in dom && !lt(a, b) && !lt(b, c) ensures !lt(a, c) {
      NotLtIsLe(stamp(b), stamp(a));
      NotLtIsLe(stamp(c), stamp(b));
      StrLeTransitive(stamp(c), stamp(b), stamp(a));
      NotLtIsLe(stamp(c), stamp(a));
    }
  }
}
