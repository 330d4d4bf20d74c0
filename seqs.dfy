/**
 * Sequence helpers shared by the models: the first/last element satisfying a
 * predicate (Kotlin's `firstOrNull`, `lastOrNull`, `indexOf`) and the stable
 * key sort behind `sortedWith(compareBy(..))` and `sortedByDescending`.
 */
module Seqs {
  import opened Wrappers

  /** Index of the first element satisfying `p`, or None (Kotlin's `firstOrNull`). */
  function FirstIndex<T>(s: seq<T>, p: T -> bool): (r: Option<nat>)
    ensures r.Some? ==> r.value < |s| && p(s[r.value])
    ensures r.Some? ==> forall j :: 0 <= j < r.value ==> !p(s[j])
    ensures r.None? <==> forall j :: 0 <= j < |s| ==> !p(s[j])
  {
    if |s| == 0 then None
    else if p(s[0]) then Some(0)
    else
      match FirstIndex(s[1..], p)
      case None => None
      case Some(k) => Some(k + 1)
  }

  /** The first element satisfying `p` is the one at `k` exactly when none before `k` does. */
  lemma FirstIndexAt<T>(s: seq<T>, p: T -> bool, k: nat)
    requires k < |s| && p(s[k]) && forall j :: 0 <= j < k ==> !p(s[j])
    ensures FirstIndex(s, p) == Some(k)
  {
  }

  /** Index of the last element satisfying `p`, or None (Kotlin's `lastOrNull`). */
  function LastIndex<T>(s: seq<T>, p: T -> bool): (r: Option<nat>)
    ensures r.Some? ==> r.value < |s| && p(s[r.value])
    ensures r.Some? ==> forall j :: r.value < j < |s| ==> !p(s[j])
    ensures r.None? <==> forall j :: 0 <= j < |s| ==> !p(s[j])
  {
    if |s| == 0 then None
    else if p(s[|s| - 1]) then Some(|s| - 1)
    else LastIndex(s[..|s| - 1], p)
  }

  /** Kotlin's `indexOf`: the first position of `x`, or -1 when it is absent. */
  function IndexOf<T(==)>(s: seq<T>, x: T): (r: int)
    ensures -1 <= r < |s|
    ensures r == -1 <==> x !in s
    ensures r >= 0 ==> s[r] == x && forall j :: 0 <= j < r ==> s[j] != x
  {
    if |s| == 0 then -1
    else if s[0] == x then 0
    else
      var k := IndexOf(s[1..], x);
      if k == -1 then -1 else k + 1
  }

  // ---------------------------------------------------------------------------
  // Sort keys and the stable sort by key
  // ---------------------------------------------------------------------------

  /**
   * A comparable selector value: numbers (`Int`, `Long`) or text (`String`,
   * compared lexicographically by character, a proper prefix first).
   */
  datatype SortKey = IntKey(n: int) | TextKey(s: string)

  /** Lexicographic strict order on strings, as `String.compareTo(..) < 0`. */
  predicate LexLess(s: string, t: string)
  {
    if |s| == 0 then |t| > 0
    else if |t| == 0 then false
    else if s[0] == t[0] then LexLess(s[1..], t[1..])
    else s[0] < t[0]
  }

  /** Strict order on keys; within one selector all keys have the same shape. */
  predicate KeyLess(a: SortKey, b: SortKey)
  {
    match (a, b)
    case (IntKey(x), IntKey(y)) => x < y
    case (TextKey(x), TextKey(y)) => LexLess(x, y)
    case (IntKey(_), TextKey(_)) => true
    case (TextKey(_), IntKey(_)) => false
  }

  lemma {:induction false} LexLessIrreflexive(s: string)
    ensures !LexLess(s, s)
  {
    if |s| > 0 { LexLessIrreflexive(s[1..]); }
  }

  lemma {:induction false} LexLessTransitive(s: string, t: string, u: string)
    requires LexLess(s, t) && LexLess(t, u)
    ensures LexLess(s, u)
  {
    if |s| > 0 && |t| > 0 && |u| > 0 && s[0] == t[0] && t[0] == u[0] {
      LexLessTransitive(s[1..], t[1..], u[1..]);
    }
  }

  lemma {:induction false} LexLessTotal(s: string, t: string)
    requires s != t
    ensures LexLess(s, t) || LexLess(t, s)
  {
    if |s| > 0 && |t| > 0 && s[0] == t[0] {
      assert s == [s[0]] + s[1..] && t == [t[0]] + t[1..];
      LexLessTotal(s[1..], t[1..]);
    }
  }

  lemma KeyLessIrreflexive(a: SortKey)
    ensures !KeyLess(a, a)
  {
    if a.TextKey? { LexLessIrreflexive(a.s); }
  }

  lemma KeyLessTransitive(a: SortKey, b: SortKey, c: SortKey)
    requires KeyLess(a, b) && KeyLess(b, c)
    ensures KeyLess(a, c)
  {
    if a.TextKey? && b.TextKey? && c.TextKey? { LexLessTransitive(a.s, b.s, c.s); }
  }

  lemma KeyLessTotal(a: SortKey, b: SortKey)
    requires a != b
    ensures KeyLess(a, b) || KeyLess(b, a)
  {
    if a.TextKey? && b.TextKey? { LexLessTotal(a.s, b.s); }
  }

  /** `x` must come strictly before `y`: ascending by key, or descending when `descending`. */
  predicate Before<T>(key: T -> SortKey, descending: bool, x: T, y: T)
  {
    if descending then KeyLess(key(y), key(x)) else KeyLess(key(x), key(y))
  }

  /** No element is strictly before an element that precedes it. */
  ghost predicate SortedBy<T>(s: seq<T>, key: T -> SortKey, descending: bool)
  {
    forall i, j :: 0 <= i < j < |s| ==> !Before(key, descending, s[j], s[i])
  }

  /** The elements of `s` whose key is `k`, in their order in `s`. */
  function WithKey<T>(s: seq<T>, key: T -> SortKey, k: SortKey): seq<T>
  {
    if |s| == 0 then []
    else (if key(s[0]) == k then [s[0]] else []) + WithKey(s[1..], key, k)
  }

  /** Stable insertion: `x` goes in front of the first element it is not strictly after. */
  function Insert<T>(x: T, s: seq<T>, key: T -> SortKey, descending: bool): seq<T>
  {
    if |s| == 0 || !Before(key, descending, s[0], x) then [x] + s
    else [s[0]] + Insert(x, s[1..], key, descending)
  }

  /**
   * Kotlin's `sortedWith(compareBy(key))` (or `compareByDescending`): a stable
   * sort. Its meaning is stated by SortByKeyPermutation, SortByKeySorted and
   * SortByKeyStable.
   */
  function SortByKey<T>(s: seq<T>, key: T -> SortKey, descending: bool): seq<T>
  {
    if |s| == 0 then [] else Insert(s[0], SortByKey(s[1..], key, descending), key, descending)
  }

  lemma {:induction false} InsertPermutation<T>(x: T, s: seq<T>, key: T -> SortKey, descending: bool)
    ensures multiset(Insert(x, s, key, descending)) == multiset([x] + s)
  {
    if |s| > 0 && Before(key, descending, s[0], x) {
      InsertPermutation(x, s[1..], key, descending);
      assert s == [s[0]] + s[1..];
    }
  }

  /** Ordering by key is a total preorder: "not before" is transitive. */
  lemma NotBeforeTransitive<T>(key: T -> SortKey, descending: bool, x: T, y: T, z: T)
    requires !Before(key, descending, x, y) && !Before(key, descending, y, z)
    ensures !Before(key, descending, x, z)
  {
    var kx, ky, kz := key(x), key(y), key(z);
    if ky != kz {
      KeyLessTotal(ky, kz);
      if descending {
        if KeyLess(kz, kx) { KeyLessTransitive(ky, kz, kx); }
      } else {
        if KeyLess(kx, kz) { KeyLessTransitive(kx, kz, ky); }
      }
    }
  }

  lemma BeforeAsymmetric<T>(key: T -> SortKey, descending: bool, x: T, y: T)
    requires Before(key, descending, x, y)
    ensures !Before(key, descending, y, x)
  {
    if Before(key, descending, y, x) {
      if descending { KeyLessTransitive(key(y), key(x), key(y)); KeyLessIrreflexive(key(y)); }
      else { KeyLessTransitive(key(x), key(y), key(x)); KeyLessIrreflexive(key(x)); }
    }
  }

  lemma {:induction false} InsertSorted<T>(x: T, s: seq<T>, key: T -> SortKey, descending: bool)
    requires SortedBy(s, key, descending)
    ensures SortedBy(Insert(x, s, key, descending), key, descending)
  {
    var r := Insert(x, s, key, descending);
    if |s| == 0 {
    } else if !Before(key, descending, s[0], x) {
      forall i, j | 0 <= i < j < |r| ensures !Before(key, descending, r[j], r[i]) {
        if i == 0 && j > 1 {
          NotBeforeTransitive(key, descending, s[j - 1], s[0], x);
        }
      }
    } else {
      var t := Insert(x, s[1..], key, descending);
      InsertSorted(x, s[1..], key, descending);
      InsertPermutation(x, s[1..], key, descending);
      assert r == [s[0]] + t;
      forall j | 0 < j < |r| ensures !Before(key, descending, r[j], r[0]) {
        assert r[j] in multiset(t);
        assert r[j] in multiset([x] + s[1..]);
        if r[j] == x {
          BeforeAsymmetric(key, descending, s[0], x);
        } else {
          assert r[j] in s[1..];
          var k :| 0 <= k < |s[1..]| && s[1..][k] == r[j];
          assert s[k + 1] == r[j];
        }
      }
    }
  }

  lemma {:induction false} InsertWithKey<T>(x: T, s: seq<T>, key: T -> SortKey, descending: bool, k: SortKey)
    ensures WithKey(Insert(x, s, key, descending), key, k)
         == (if key(x) == k then [x] else []) + WithKey(s, key, k)
  {
    if |s| > 0 && Before(key, descending, s[0], x) {
      var t := Insert(x, s[1..], key, descending);
      InsertWithKey(x, s[1..], key, descending, k);
      assert Insert(x, s, key, descending) == [s[0]] + t;
      assert ([s[0]] + t)[1..] == t;
      if key(x) == k && key(s[0]) == k {
        KeyLessIrreflexive(k);
      }
    } else {
      assert ([x] + s)[1..] == s;
    }
  }

  /** Sorting by key is a permutation of its input. */
  lemma {:induction false} SortByKeyPermutation<T>(s: seq<T>, key: T -> SortKey, descending: bool)
    ensures multiset(SortByKey(s, key, descending)) == multiset(s)
  {
    if |s| > 0 {
      SortByKeyPermutation(s[1..], key, descending);
      InsertPermutation(s[0], SortByKey(s[1..], key, descending), key, descending);
      assert s == [s[0]] + s[1..];
    }
  }

  /** Sorting by key orders by key: ascending, or descending when `descending`. */
  lemma {:induction false} SortByKeySorted<T>(s: seq<T>, key: T -> SortKey, descending: bool)
    ensures SortedBy(SortByKey(s, key, descending), key, descending)
  {
    if |s| > 0 {
      SortByKeySorted(s[1..], key, descending);
      InsertSorted(s[0], SortByKey(s[1..], key, descending), key, descending);
    }
  }

  /** Sorting by key is stable: the elements sharing any one key keep their relative order. */
  lemma {:induction false} SortByKeyStable<T>(s: seq<T>, key: T -> SortKey, descending: bool, k: SortKey)
    ensures WithKey(SortByKey(s, key, descending), key, k) == WithKey(s, key, k)
  {
    if |s| > 0 {
      SortByKeyStable(s[1..], key, descending, k);
      InsertWithKey(s[0], SortByKey(s[1..], key, descending), key, descending, k);
    }
  }

  lemma SortByKeyLength<T>(s: seq<T>, key: T -> SortKey, descending: bool)
    ensures |SortByKey(s, key, descending)| == |s|
  {
    SortByKeyPermutation(s, key, descending);
    assert |multiset(SortByKey(s, key, descending))| == |multiset(s)|;
  }
}
