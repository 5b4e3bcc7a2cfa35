/** src/util/util.ts: order-insensitive comparison of two string arrays, and
    the per-run cache of lazily created singletons. */
module Util {
  import opened Strings
  import opened Json

  /** Builds the value to cache. */
  type Factory = () -> Json

  // ---------------------------------------------------------------------------
  // The default `sort()` of a copy

  predicate Sorted(s: seq<string>)
  {
    forall i, j :: 0 <= i < j < |s| ==> StrLe(s[i], s[j])
  }

  /** Inserts `x` before the first element it does not exceed. */
  function Insert(x: string, s: seq<string>): (r: seq<string>)
    ensures multiset(r) == multiset(s) + multiset{x}
    ensures |r| == |s| + 1
  {
    if |s| == 0 then [x]
    else if StrLe(x, s[0]) then [x] + s
    else
      assert s == [s[0]] + s[1..];
      [s[0]] + Insert(x, s[1..])
  }

  /** Insertion keeps a sorted sequence sorted. */
  lemma {:induction false} InsertSorted(x: string, s: seq<string>)
    requires Sorted(s)
    ensures Sorted(Insert(x, s))
  {
    if |s| == 0 {
    } else if StrLe(x, s[0]) {
      forall j | 0 < j < |s| ensures StrLe(x, s[j]) { StrLeTransitive(x, s[0], s[j]); }
    } else {
      StrLeTotal(x, s[0]);
      InsertSorted(x, s[1..]);
      var rest := Insert(x, s[1..]);
      forall j | 0 <= j < |rest| ensures StrLe(s[0], rest[j]) {
        assert rest[j] in multiset(rest);
        if rest[j] != x {
          assert rest[j] in multiset(s[1..]);
          var k :| 0 <= k < |s[1..]| && s[1..][k] == rest[j];
          assert StrLe(s[0], s[k + 1]);
        }
      }
    }
  }

  /** `[...arr].sort()` on strings: the same elements in code-point order. */
  function Sort(s: seq<string>): (r: seq<string>)
    ensures multiset(r) == multiset(s)
    ensures |r| == |s|
  {
    if |s| == 0 then []
    else
      assert s == [s[0]] + s[1..];
      Insert(s[0], Sort(s[1..]))
  }

  /** The result of `Sort` is in code-point order. */
  lemma {:induction false} SortSorted(s: seq<string>)
    ensures Sorted(Sort(s))
  {
    if |s| > 0 {
      SortSorted(s[1..]);
      InsertSorted(s[0], Sort(s[1..]));
    }
  }

  /** A sorted sequence starts with an element no greater than any of its elements. */
  lemma SortedHeadLeast(s: seq<string>, x: string)
    requires Sorted(s) && x in multiset(s)
    ensures StrLe(s[0], x)
  {
    var k :| 0 <= k < |s| && s[k] == x;
    if k == 0 {
      StrLeTotal(x, x);
    }
  }

  /** Two sorted sequences with the same elements are equal: sorting forgets
      only the order. */
  lemma {:induction false} SortedUnique(a: seq<string>, b: seq<string>)
    requires Sorted(a) && Sorted(b)
    requires multiset(a) == multiset(b)
    ensures a == b
  {
    if |a| == 0 {
      assert |b| == |multiset(b)| == 0;
    } else {
      assert |b| == |multiset(b)| == |a|;
      assert a[0] in multiset(b);
      assert b[0] in multiset(a);
      SortedHeadLeast(b, a[0]);
      SortedHeadLeast(a, b[0]);
      StrLeAntisymmetric(a[0], b[0]);
      assert a == [a[0]] + a[1..];
      assert b == [b[0]] + b[1..];
      assert multiset(a[1..]) == multiset(a) - multiset{a[0]};
      assert multiset(b[1..]) == multiset(b) - multiset{b[0]};
      SortedUnique(a[1..], b[1..]);
    }
  }

  /** Arrays with the same elements sort to the same array, and conversely. */
  lemma SortEqualIffPermutation(a: seq<string>, b: seq<string>)
    ensures Sort(a) == Sort(b) <==> multiset(a) == multiset(b)
  {
    if multiset(a) == multiset(b) {
      SortSorted(a);
      SortSorted(b);
      SortedUnique(Sort(a), Sort(b));
    }
  }

  // ---------------------------------------------------------------------------
  // arraysEqual

  /** The comparison loop of `arraysEqual`: two arrays of the same length
      are compared position by position with `!==`. */
  method SamePositions(s1: seq<string>, s2: seq<string>) returns (equal: bool)
    requires |s1| == |s2|
    ensures equal <==> s1 == s2
  {
    for i := 0 to |s1|
      invariant forall j :: 0 <= j < i ==> s1[j] == s2[j]
    {
      if s1[i] != s2[i] {
        return false;
      }
    }
    assert s1 == s2;
    return true;
  }

  /** `arraysEqual(arr1, arr2)`: unequal lengths are unequal; otherwise the
      sorted copies are compared position by position. The result holds
      exactly when the arrays hold the same strings the same number of times. */
  method ArraysEqual(arr1: seq<string>, arr2: seq<string>) returns (equal: bool)
    ensures equal <==> multiset(arr1) == multiset(arr2)
  {
    if |arr1| != |arr2| {
      assert |multiset(arr1)| != |multiset(arr2)|;
      return false;
    }
    var s1 := Sort(arr1);
    var s2 := Sort(arr2);
    SortEqualIffPermutation(arr1, arr2);
    equal := SamePositions(s1, s2);
  }

  // ---------------------------------------------------------------------------
  // Context

  /** The cache of lazily built clients for one run. Cached values are kept
      as JSON values so that the truthiness test of the source applies. */
  class Context {
    var singletons: map<string, Json>

    constructor ()
      ensures singletons == map[]
    {
      singletons := map[];
    }

    /** A truthy value cached under `key` is returned and the factory is not
        called; otherwise the factory's value is stored under `key`
        (replacing a falsy one) and returned. Other keys are untouched. */
    method Singleton(key: string, factory: Factory) returns (value: Json, created: bool)
      modifies this
      ensures created <==> !(key in old(singletons) && Truthy(old(singletons)[key]))
      ensures !created ==> value == old(singletons)[key] && singletons == old(singletons)
      ensures created ==> value == factory() && singletons == old(singletons)[key := value]
      ensures key in singletons && singletons[key] == value
      ensures forall k :: k != key ==> (k in singletons <==> k in old(singletons))
      ensures forall k :: k != key && k in old(singletons) ==> singletons[k] == old(singletons)[k]
    {
      if key in singletons && Truthy(singletons[key]) {
        return singletons[key], false;
      }
      singletons := singletons[key := factory()];
      return singletons[key], true;
    }
  }

  /** Once a truthy value is cached, every later request for its key returns
      that same value without building a new one. */
  method SingletonIsStable(ctx: Context, key: string, f: Factory, g: Factory)
    returns (first: Json, second: Json)
    requires Truthy(f())
    modifies ctx
    ensures first == second
    ensures key in ctx.singletons && ctx.singletons[key] == first
  {
    var created;
    first, created := ctx.Singleton(key, f);
    second, created := ctx.Singleton(key, g);
  }
}
