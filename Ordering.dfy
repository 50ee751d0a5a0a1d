/** The comparator the photo and frame selectors hand to `Array.prototype.sort`:
    `(a, b) => sortOrder === 'asc' ? (a[k] > b[k] ? 1 : -1) : (a[k] < b[k] ? 1 : -1)`
    for a field `k` holding a number, a date or a string. */
module Ordering {
  import opened Types
  import opened Seqs
  import opened Strings

  /** The value of the field a collection is sorted by. */
  datatype SortKey = IntKey(n: int) | TextKey(s: string)

  /** `a < b` on keys. One sort only ever compares keys of one kind; the
      mixed cases are ordered only to make the relation total. */
  predicate KeyLess(a: SortKey, b: SortKey) {
    match (a, b)
    case (IntKey(x), IntKey(y)) => x < y
    case (TextKey(x), TextKey(y)) => LexLess(x, y)
    case (IntKey(_), TextKey(_)) => true
    case (TextKey(_), IntKey(_)) => false
  }

  lemma KeyLessIsStrictTotalOrder(a: SortKey, b: SortKey, c: SortKey)
    ensures !KeyLess(a, a)
    ensures KeyLess(a, b) && KeyLess(b, c) ==> KeyLess(a, c)
    ensures a == b || KeyLess(a, b) || KeyLess(b, a)
  {
    if a.TextKey? {
      LexLessIrreflexive(a.s);
      if b.TextKey? {
        LexLessTotal(a.s, b.s);
        if c.TextKey? && KeyLess(a, b) && KeyLess(b, c) {
          LexLessTransitive(a.s, b.s, c.s);
        }
      }
    }
  }

  /** "`a` may stay before `b`": the comparator does not return 1. */
  function InOrder<T>(key: T -> SortKey, dir: SortDirection): (T, T) -> bool {
    match dir
    case Asc => (a: T, b: T) => !KeyLess(key(b), key(a))
    case Desc => (a: T, b: T) => !KeyLess(key(a), key(b))
  }

  lemma InOrderIsTotalPreorder<T(!new)>(key: T -> SortKey, dir: SortDirection)
    ensures TotalRelation(InOrder(key, dir))
    ensures TransitiveRelation(InOrder(key, dir))
  {
    var le := InOrder(key, dir);
    forall a: T, b: T
      ensures le(a, b) || le(b, a)
    {
      KeyLessIsStrictTotalOrder(key(a), key(b), key(a));
    }
    forall a: T, b: T, c: T | le(a, b) && le(b, c)
      ensures le(a, c)
    {
      KeyLessIsStrictTotalOrder(key(a), key(b), key(c));
      KeyLessIsStrictTotalOrder(key(c), key(b), key(a));
      KeyLessIsStrictTotalOrder(key(b), key(a), key(c));
      KeyLessIsStrictTotalOrder(key(b), key(c), key(a));
    }
  }

  /** `[...s].sort(comparator)`. */
  function SortByKey<T>(s: seq<T>, key: T -> SortKey, dir: SortDirection): (r: seq<T>)
    ensures multiset(r) == multiset(s)
  {
    SortBy(s, InOrder(key, dir))
  }

  /** The sorted copy has non-decreasing keys for `asc` and non-increasing
      keys for `desc`. */
  lemma SortByKeyOrders<T(!new)>(s: seq<T>, key: T -> SortKey, dir: SortDirection)
    ensures var r := SortByKey(s, key, dir);
      forall i, j :: 0 <= i < j < |r| ==>
        if dir == Asc then !KeyLess(key(r[j]), key(r[i])) else !KeyLess(key(r[i]), key(r[j]))
  {
    InOrderIsTotalPreorder(key, dir);
    SortByIsSorted(s, InOrder(key, dir));
  }
}
