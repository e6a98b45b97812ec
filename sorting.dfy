/**
 * SQLite's `ORDER BY`, as used by the fetches of the database manager. Values are compared
 * with SQLite's rules: NULL before numbers, numbers before text, text by its code points
 * (the BINARY collation). Rows that tie keep their table order.
 */
module Sorting {

  datatype SortKey = NullKey | IntKey(i: int) | TextKey(s: string)

  /** Lexicographic order on strings. */
  predicate StrLe(a: string, b: string)
  {
    |a| == 0 || (|b| > 0 && (a[0] < b[0] || (a[0] == b[0] && StrLe(a[1..], b[1..]))))
  }

  lemma {:induction false} StrLeTotal(a: string, b: string)
    ensures StrLe(a, b) || StrLe(b, a)
  {
    if |a| > 0 && |b| > 0 && a[0] == b[0] {
      StrLeTotal(a[1..], b[1..]);
    }
  }

  lemma {:induction false} StrLeTrans(a: string, b: string, c: string)
    requires StrLe(a, b) && StrLe(b, c)
    ensures StrLe(a, c)
  {
    if |a| > 0 && a[0] == b[0] && b[0] == c[0] {
      StrLeTrans(a[1..], b[1..], c[1..]);
    }
  }

  /** The empty string precedes every string. */
  lemma EmptyStrLe(b: string)
    ensures StrLe("", b)
  {
  }

  predicate KeyLe(a: SortKey, b: SortKey)
  {
    match a
    case NullKey => true
    case IntKey(x) => (b.IntKey? && x <= b.i) || b.TextKey?
    case TextKey(s) => b.TextKey? && StrLe(s, b.s)
  }

  lemma KeyLeTotal(a: SortKey, b: SortKey)
    ensures KeyLe(a, b) || KeyLe(b, a)
  {
    if a.TextKey? && b.TextKey? {
      StrLeTotal(a.s, b.s);
    }
  }

  lemma KeyLeTrans(a: SortKey, b: SortKey, c: SortKey)
    requires KeyLe(a, b) && KeyLe(b, c)
    ensures KeyLe(a, c)
  {
    if a.TextKey? {
      StrLeTrans(a.s, b.s, c.s);
    }
  }

  /** `a` may come before `b` under `ASC` (desc == false) or `DESC` (desc == true). */
  predicate Precedes(a: SortKey, b: SortKey, desc: bool)
  {
    if desc then KeyLe(b, a) else KeyLe(a, b)
  }

  lemma PrecedesTotal(a: SortKey, b: SortKey, desc: bool)
    ensures Precedes(a, b, desc) || Precedes(b, a, desc)
  {
    KeyLeTotal(a, b);
  }

  lemma PrecedesTrans(a: SortKey, b: SortKey, c: SortKey, desc: bool)
    requires Precedes(a, b, desc) && Precedes(b, c, desc)
    ensures Precedes(a, c, desc)
  {
    if desc { KeyLeTrans(c, b, a); } else { KeyLeTrans(a, b, c); }
  }

  ghost predicate SortedBy<T>(xs: seq<T>, key: T -> SortKey, desc: bool)
  {
    forall i, j :: 0 <= i < j < |xs| ==> Precedes(key(xs[i]), key(xs[j]), desc)
  }

  /** Places `x` before the first element it may precede. */
  function InsertSorted<T>(x: T, ys: seq<T>, key: T -> SortKey, desc: bool): (r: seq<T>)
    ensures multiset(r) == multiset(ys) + multiset{x}
    ensures |r| == |ys| + 1
  {
    if ys == [] then [x]
    else if Precedes(key(x), key(ys[0]), desc) then [x] + ys
    else
      assert ys == [ys[0]] + ys[1..];
      [ys[0]] + InsertSorted(x, ys[1..], key, desc)
  }

  lemma {:induction false} InsertSortedSorted<T>(x: T, ys: seq<T>, key: T -> SortKey, desc: bool)
    requires SortedBy(ys, key, desc)
    ensures SortedBy(InsertSorted(x, ys, key, desc), key, desc)
  {
    if ys == [] {
    } else if Precedes(key(x), key(ys[0]), desc) {
      InsertFront(x, ys, key, desc);
    } else {
      PrecedesTotal(key(x), key(ys[0]), desc);
      InsertSortedSorted(x, ys[1..], key, desc);
      HeadPrecedesInserted(x, ys, key, desc);
      ConsSorted(ys[0], InsertSorted(x, ys[1..], key, desc), key, desc);
    }
  }

  /** The head of a sorted list may precede everything in its tail with `x` inserted after it. */
  lemma HeadPrecedesInserted<T>(x: T, ys: seq<T>, key: T -> SortKey, desc: bool)
    requires SortedBy(ys, key, desc) && ys != []
    requires Precedes(key(ys[0]), key(x), desc)
    ensures forall j :: 0 <= j < |InsertSorted(x, ys[1..], key, desc)| ==>
      Precedes(key(ys[0]), key(InsertSorted(x, ys[1..], key, desc)[j]), desc)
  {
    var rest := InsertSorted(x, ys[1..], key, desc);
    forall j | 0 <= j < |rest| ensures Precedes(key(ys[0]), key(rest[j]), desc) {
      assert rest[j] in multiset(rest);
      if rest[j] != x {
        assert rest[j] in multiset(ys[1..]);
        var k :| 0 <= k < |ys[1..]| && ys[1..][k] == rest[j];
        assert ys[k + 1] == rest[j];
      }
    }
  }

  lemma ConsSorted<T>(y: T, rest: seq<T>, key: T -> SortKey, desc: bool)
    requires SortedBy(rest, key, desc)
    requires forall j :: 0 <= j < |rest| ==> Precedes(key(y), key(rest[j]), desc)
    ensures SortedBy([y] + rest, key, desc)
  {
    var r := [y] + rest;
    forall i, j | 0 <= i < j < |r| ensures Precedes(key(r[i]), key(r[j]), desc) {
      if i > 0 {
        assert r[i] == rest[i - 1] && r[j] == rest[j - 1];
      } else {
        assert r[j] == rest[j - 1];
      }
    }
  }

  lemma InsertFront<T>(x: T, ys: seq<T>, key: T -> SortKey, desc: bool)
    requires SortedBy(ys, key, desc) && ys != []
    requires Precedes(key(x), key(ys[0]), desc)
    ensures SortedBy([x] + ys, key, desc)
  {
    var r := [x] + ys;
    forall i, j | 0 <= i < j < |r| ensures Precedes(key(r[i]), key(r[j]), desc) {
      if i == 0 && j > 1 {
        PrecedesTrans(key(x), key(ys[0]), key(ys[j - 1]), desc);
      }
    }
  }

  /**
   * The row order an `ORDER BY` query yields: sorted by `key` and a permutation of its input.
   * Equal keys keep their input order (SQLite does not promise this; the model picks it).
   */
  function SortBy<T>(xs: seq<T>, key: T -> SortKey, desc: bool): (r: seq<T>)
    ensures SortedBy(r, key, desc)
    ensures multiset(r) == multiset(xs)
    ensures |r| == |xs|
  {
    if xs == [] then []
    else
      assert xs == [xs[0]] + xs[1..];
      InsertSortedSorted(xs[0], SortBy(xs[1..], key, desc), key, desc);
      InsertSorted(xs[0], SortBy(xs[1..], key, desc), key, desc)
  }
}
