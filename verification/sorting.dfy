/** `list.sort(key=..., reverse=...)`: Python's stable sort, on the two kinds of key
    the pages sort by (text and numbers). With `reverse=True` the order of the keys
    is reversed while elements with equal keys keep their original order. */
module Sorting {

  /** A sort key: a string, compared by code points, or a number. */
  datatype Key = Text(s: string) | Num(x: real)

  /** Python's `<` on strings: lexicographic by code point, a proper prefix first. */
  predicate StrLess(a: string, b: string)
    decreases |a|
  {
    if a == [] then b != []
    else if b == [] then false
    else if a[0] != b[0] then a[0] < b[0]
    else StrLess(a[1..], b[1..])
  }

  lemma {:induction false} StrLessIrreflexive(a: string)
    ensures !StrLess(a, a)
  {
    if a != [] {
      StrLessIrreflexive(a[1..]);
    }
  }

  lemma {:induction false} StrLessTransitive(a: string, b: string, c: string)
    requires StrLess(a, b) && StrLess(b, c)
    ensures StrLess(a, c)
    decreases |a|
  {
    if a != [] && a[0] == b[0] && b[0] == c[0] {
      StrLessTransitive(a[1..], b[1..], c[1..]);
    }
  }

  lemma {:induction false} StrLessTotal(a: string, b: string)
    ensures a == b || StrLess(a, b) || StrLess(b, a)
    decreases |a|
  {
    if a != [] && b != [] && a[0] == b[0] {
      StrLessTotal(a[1..], b[1..]);
      if a[1..] == b[1..] {
        assert a == [a[0]] + a[1..] && b == [b[0]] + b[1..];
      }
    }
  }

  /** Strings that agree up to a point are ordered by the first character that differs. */
  lemma {:induction false} StrLessAfterPrefix(p: string, a: string, b: string)
    requires a != [] && b != [] && a[0] < b[0]
    ensures StrLess(p + a, p + b)
  {
    if p == [] {
      assert p + a == a && p + b == b;
    } else {
      assert (p + a)[1..] == p[1..] + a && (p + b)[1..] == p[1..] + b;
      StrLessAfterPrefix(p[1..], a, b);
    }
  }

  /** The strict order on keys. Python refuses to compare a number with a string;
      the pages never do, and here numbers are placed first so the order is total. */
  predicate Less(a: Key, b: Key) {
    match (a, b)
    case (Num(x), Num(y)) => x < y
    case (Text(s), Text(t)) => StrLess(s, t)
    case (Num(_), Text(_)) => true
    case (Text(_), Num(_)) => false
  }

  lemma LessIrreflexive(a: Key)
    ensures !Less(a, a)
  {
    if a.Text? {
      StrLessIrreflexive(a.s);
    }
  }

  lemma LessTransitive(a: Key, b: Key, c: Key)
    requires Less(a, b) && Less(b, c)
    ensures Less(a, c)
  {
    if a.Text? && b.Text? && c.Text? {
      StrLessTransitive(a.s, b.s, c.s);
    }
  }

  lemma LessTotal(a: Key, b: Key)
    ensures a == b || Less(a, b) || Less(b, a)
  {
    if a.Text? && b.Text? {
      StrLessTotal(a.s, b.s);
    }
  }

  /** `x` must be placed strictly before `y`: its key is smaller, or larger when
      the order is reversed. Elements that are not ordered either way are equal keys. */
  predicate Before<T>(x: T, y: T, key: T -> Key, descending: bool) {
    if descending then Less(key(y), key(x)) else Less(key(x), key(y))
  }

  predicate Sorted<T>(s: seq<T>, key: T -> Key, descending: bool) {
    forall i, j | 0 <= i < j < |s| :: !Before(s[j], s[i], key, descending)
  }

  /** The elements of `s` whose key is `k`, in their order in `s`. */
  function WithKey<T>(s: seq<T>, key: T -> Key, k: Key): seq<T> {
    if s == [] then [] else (if key(s[0]) == k then [s[0]] else []) + WithKey(s[1..], key, k)
  }

  /** The element itself if it has key `k`, nothing otherwise. */
  function KeepIf<T>(x: T, key: T -> Key, k: Key): seq<T> {
    if key(x) == k then [x] else []
  }

  lemma WithKeyCons<T>(x: T, s: seq<T>, key: T -> Key, k: Key)
    ensures WithKey([x] + s, key, k) == KeepIf(x, key, k) + WithKey(s, key, k)
  {
    assert ([x] + s)[0] == x && ([x] + s)[1..] == s;
  }

  lemma {:induction false} WithKeyConcat<T>(a: seq<T>, b: seq<T>, key: T -> Key, k: Key)
    ensures WithKey(a + b, key, k) == WithKey(a, key, k) + WithKey(b, key, k)
  {
    if a == [] {
      assert a + b == b;
    } else {
      var h := KeepIf(a[0], key, k);
      assert a + b == [a[0]] + (a[1..] + b);
      WithKeyCons(a[0], a[1..] + b, key, k);
      WithKeyConcat(a[1..], b, key, k);
      assert a == [a[0]] + a[1..];
      WithKeyCons(a[0], a[1..], key, k);
      assert h + (WithKey(a[1..], key, k) + WithKey(b, key, k)) == (h + WithKey(a[1..], key, k)) + WithKey(b, key, k);
    }
  }

  /** Places `x` in front of the first element it is not strictly after. */
  function Insert<T>(x: T, s: seq<T>, key: T -> Key, descending: bool): seq<T> {
    if s == [] || !Before(s[0], x, key, descending) then [x] + s
    else [s[0]] + Insert(x, s[1..], key, descending)
  }

  lemma {:induction false} InsertSorted<T>(x: T, s: seq<T>, key: T -> Key, descending: bool)
    requires Sorted(s, key, descending)
    ensures Sorted(Insert(x, s, key, descending), key, descending)
    ensures multiset(Insert(x, s, key, descending)) == multiset([x] + s)
  {
    InsertPermutes(x, s, key, descending);
    if s == [] {
    } else if !Before(s[0], x, key, descending) {
      NothingBeforeHead(x, s, key, descending);
      ConsSorted(x, s, key, descending);
    } else {
      InsertSorted(x, s[1..], key, descending);
      var t := Insert(x, s[1..], key, descending);
      HeadStaysFirst(x, s, t, key, descending);
      ConsSorted(s[0], t, key, descending);
    }
  }

  /** Inserting adds exactly the element. */
  lemma {:induction false} InsertPermutes<T>(x: T, s: seq<T>, key: T -> Key, descending: bool)
    ensures multiset(Insert(x, s, key, descending)) == multiset([x] + s)
  {
    if s != [] && Before(s[0], x, key, descending) {
      InsertPermutes(x, s[1..], key, descending);
      assert s == [s[0]] + s[1..];
    }
  }

  /** A sorted list stays sorted with an element in front that nothing should precede. */
  lemma ConsSorted<T>(h: T, t: seq<T>, key: T -> Key, descending: bool)
    requires Sorted(t, key, descending)
    requires forall j | 0 <= j < |t| :: !Before(t[j], h, key, descending)
    ensures Sorted([h] + t, key, descending)
  {
    var r := [h] + t;
    forall i, j | 0 <= i < j < |r|
      ensures !Before(r[j], r[i], key, descending)
    {
      assert r[j] == t[j - 1];
      if i > 0 {
        assert r[i] == t[i - 1];
      }
    }
  }

  /** When `x` is not after the head of a sorted list, it is not after any element. */
  lemma NothingBeforeHead<T>(x: T, s: seq<T>, key: T -> Key, descending: bool)
    requires Sorted(s, key, descending) && s != [] && !Before(s[0], x, key, descending)
    ensures forall j | 0 <= j < |s| :: !Before(s[j], x, key, descending)
  {
    forall j | 0 < j < |s|
      ensures !Before(s[j], x, key, descending)
    {
      if Before(s[j], x, key, descending) {
        assert !Before(s[j], s[0], key, descending);
        LessTotal(key(s[0]), key(s[j]));
        if descending {
          LessTransitive(key(x), key(s[j]), key(s[0]));
        } else {
          LessTransitive(key(s[0]), key(s[j]), key(x));
        }
      }
    }
  }

  /** When `x` goes after the head, the head goes before everything else. */
  lemma HeadStaysFirst<T>(x: T, s: seq<T>, t: seq<T>, key: T -> Key, descending: bool)
    requires Sorted(s, key, descending) && s != [] && Before(s[0], x, key, descending)
    requires multiset(t) == multiset([x] + s[1..])
    ensures forall j | 0 <= j < |t| :: !Before(t[j], s[0], key, descending)
  {
    forall j | 0 <= j < |t|
      ensures !Before(t[j], s[0], key, descending)
    {
      assert t[j] in multiset([x] + s[1..]);
      if t[j] == x && Before(x, s[0], key, descending) {
        if descending {
          LessTransitive(key(s[0]), key(x), key(s[0]));
          LessIrreflexive(key(s[0]));
        } else {
          LessTransitive(key(x), key(s[0]), key(x));
          LessIrreflexive(key(x));
        }
      } else if t[j] != x {
        assert t[j] in s[1..];
        var m :| 0 <= m < |s[1..]| && s[1..][m] == t[j];
        assert s[m + 1] == t[j];
      }
    }
  }

  lemma {:induction false} InsertStable<T>(x: T, s: seq<T>, key: T -> Key, descending: bool, k: Key)
    ensures WithKey(Insert(x, s, key, descending), key, k) == WithKey([x] + s, key, k)
  {
    if s != [] && Before(s[0], x, key, descending) {
      var t := Insert(x, s[1..], key, descending);
      InsertStable(x, s[1..], key, descending, k);
      WithKeyCons(s[0], t, key, k);
      WithKeyCons(x, s[1..], key, k);
      assert s == [s[0]] + s[1..];
      WithKeyCons(s[0], s[1..], key, k);
      WithKeyCons(x, s, key, k);
      LessIrreflexive(key(x));
      assert key(s[0]) != key(x);
      assert KeepIf(s[0], key, k) == [] || KeepIf(x, key, k) == [];
      var h0, hx, rest := KeepIf(s[0], key, k), KeepIf(x, key, k), WithKey(s[1..], key, k);
      assert h0 + (hx + rest) == hx + (h0 + rest);
    }
  }

  /** `sorted(s, key=key, reverse=descending)`. */
  function Sort<T>(s: seq<T>, key: T -> Key, descending: bool): (r: seq<T>)
    ensures multiset(r) == multiset(s)
    ensures Sorted(r, key, descending)
  {
    if s == [] then []
    else
      var t := Sort(s[1..], key, descending);
      InsertSorted(s[0], t, key, descending);
      assert s == [s[0]] + s[1..];
      Insert(s[0], t, key, descending)
  }

  /** The sort is stable: elements with the same key keep their relative order. */
  lemma {:induction false} SortStable<T>(s: seq<T>, key: T -> Key, descending: bool, k: Key)
    ensures WithKey(Sort(s, key, descending), key, k) == WithKey(s, key, k)
  {
    if s != [] {
      SortStable(s[1..], key, descending, k);
      var t := Sort(s[1..], key, descending);
      InsertStable(s[0], t, key, descending, k);
      WithKeyConcat([s[0]], t, key, k);
      WithKeyConcat([s[0]], s[1..], key, k);
      assert s == [s[0]] + s[1..];
    }
  }
}
