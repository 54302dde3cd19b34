/** Small generic vocabulary shared by every module: optional values, partial
    updates, and the list operations the application builds everything from
    (filter, filter-by-index, sums and first-seen de-duplication). */
module Common {

  /** A JavaScript value that may be `undefined`. */
  datatype Option<T> = None | Some(value: T) {
    function GetOr(default: T): T {
      if Some? then value else default
    }
  }

  /** One field of a `Partial<T>` update: absent from the update, or present with a value. */
  datatype Patch<T> = Keep | Set(value: T) {
    function Apply(current: T): T {
      if Set? then value else current
    }
  }

  /** `Array.prototype.filter`: the elements satisfying `f`, in their original order. */
  function Filter<T>(s: seq<T>, f: T -> bool): (r: seq<T>)
    ensures |r| <= |s|
    ensures forall x | x in r :: x in s && f(x)
    ensures forall x | x in s && f(x) :: x in r
  {
    if s == [] then [] else (if f(s[0]) then [s[0]] else []) + Filter(s[1..], f)
  }

  lemma {:induction false} FilterConcat<T>(a: seq<T>, b: seq<T>, f: T -> bool)
    ensures Filter(a + b, f) == Filter(a, f) + Filter(b, f)
  {
    if a == [] {
      assert a + b == b;
    } else {
      assert (a + b)[1..] == a[1..] + b;
      FilterConcat(a[1..], b, f);
    }
  }

  /** Filtering keeps everything exactly when every element passes. */
  lemma {:induction false} FilterAll<T>(s: seq<T>, f: T -> bool)
    requires forall x :: x in s ==> f(x)
    ensures Filter(s, f) == s
  {
    if s != [] {
      FilterAll(s[1..], f);
    }
  }

  /** Filtering twice is filtering once by the conjunction. */
  lemma {:induction false} FilterFilter<T>(s: seq<T>, f: T -> bool, g: T -> bool, h: T -> bool)
    requires forall x :: h(x) == (f(x) && g(x))
    ensures Filter(Filter(s, f), g) == Filter(s, h)
  {
    if s != [] {
      FilterFilter(s[1..], f, g, h);
      var fs := Filter(s, f);
      if f(s[0]) {
        assert fs == [s[0]] + Filter(s[1..], f);
        assert fs != [] && fs[0] == s[0] && fs[1..] == Filter(s[1..], f);
        assert Filter(fs, g) == (if g(s[0]) then [s[0]] else []) + Filter(fs[1..], g);
      } else {
        assert fs == Filter(s[1..], f);
      }
    }
  }

  lemma {:induction false} FilterNone<T>(s: seq<T>, f: T -> bool)
    requires forall x | x in s :: !f(x)
    ensures Filter(s, f) == []
  {
    if s != [] {
      assert forall x | x in s[1..] :: x in s;
      FilterNone(s[1..], f);
    }
  }

  /** Two predicates that agree on the elements give the same filter. */
  lemma {:induction false} FilterCongruent<T>(s: seq<T>, f: T -> bool, g: T -> bool)
    requires forall x :: x in s ==> f(x) == g(x)
    ensures Filter(s, f) == Filter(s, g)
  {
    if s != [] {
      FilterCongruent(s[1..], f, g);
    }
  }

  /** Number of elements satisfying `f`. */
  function Count<T>(s: seq<T>, f: T -> bool): nat {
    if s == [] then 0 else (if f(s[0]) then 1 else 0) + Count(s[1..], f)
  }

  lemma {:induction false} FilterLength<T>(s: seq<T>, f: T -> bool)
    ensures |Filter(s, f)| == Count(s, f)
  {
    if s != [] {
      FilterLength(s[1..], f);
    }
  }

  /** Filtering out exactly one element shortens the list by exactly one. */
  lemma {:induction false} CountOne<T>(s: seq<T>, f: T -> bool, k: nat)
    requires k < |s| && !f(s[k])
    requires forall j :: 0 <= j < |s| && j != k ==> f(s[j])
    ensures Count(s, f) == |s| - 1
  {
    if k == 0 {
      CountAll(s[1..], f);
    } else {
      CountOne(s[1..], f, k - 1);
    }
  }

  lemma {:induction false} CountAll<T>(s: seq<T>, f: T -> bool)
    requires forall j :: 0 <= j < |s| ==> f(s[j])
    ensures Count(s, f) == |s|
  {
    if s != [] {
      CountAll(s[1..], f);
    }
  }

  /** `s.filter((_, index) => index !== k)`: drops the element at position `k`, if there is one. */
  function DropIndex<T>(s: seq<T>, k: int): seq<T> {
    if s == [] then [] else (if k == 0 then [] else [s[0]]) + DropIndex(s[1..], k - 1)
  }

  lemma {:induction false} DropIndexSpec<T>(s: seq<T>, k: int)
    ensures 0 <= k < |s| ==> DropIndex(s, k) == s[..k] + s[k + 1..]
    ensures !(0 <= k < |s|) ==> DropIndex(s, k) == s
  {
    if s != [] {
      var rest := DropIndex(s[1..], k - 1);
      DropIndexSpec(s[1..], k - 1);
      if k == 0 {
        assert DropIndex(s, k) == rest == s[1..];
      } else if 0 < k < |s| {
        assert rest == s[1..k] + s[k + 1..] by {
          assert s[1..][..k - 1] == s[1..k];
          assert s[1..][k..] == s[k + 1..];
        }
        assert DropIndex(s, k) == [s[0]] + rest;
        assert [s[0]] + s[1..k] == s[..k];
      } else {
        assert DropIndex(s, k) == [s[0]] + s[1..];
      }
    }
  }

  /** `s.reduce((acc, x) => acc + f(x), 0)` over reals. */
  function SumReal<T>(s: seq<T>, f: T -> real): real {
    if s == [] then 0.0 else f(s[0]) + SumReal(s[1..], f)
  }

  /** `s.reduce((acc, x) => acc + f(x), 0)` over integers. */
  function SumInt<T>(s: seq<T>, f: T -> int): int {
    if s == [] then 0 else f(s[0]) + SumInt(s[1..], f)
  }

  lemma {:induction false} SumRealConcat<T>(a: seq<T>, b: seq<T>, f: T -> real)
    ensures SumReal(a + b, f) == SumReal(a, f) + SumReal(b, f)
  {
    if a == [] {
      assert a + b == b;
    } else {
      assert (a + b)[1..] == a[1..] + b;
      SumRealConcat(a[1..], b, f);
    }
  }

  lemma {:induction false} SumIntConcat<T>(a: seq<T>, b: seq<T>, f: T -> int)
    ensures SumInt(a + b, f) == SumInt(a, f) + SumInt(b, f)
  {
    if a == [] {
      assert a + b == b;
    } else {
      assert (a + b)[1..] == a[1..] + b;
      SumIntConcat(a[1..], b, f);
    }
  }

  /** Replacing one element changes an integer sum by the difference. */
  lemma {:induction false} SumIntUpdate<T>(s: seq<T>, k: nat, x: T, f: T -> int)
    requires k < |s|
    ensures SumInt(s[k := x], f) == SumInt(s, f) - f(s[k]) + f(x)
  {
    if k == 0 {
      assert s[k := x][1..] == s[1..];
    } else {
      assert s[k := x][1..] == s[1..][k - 1 := x];
      SumIntUpdate(s[1..], k - 1, x, f);
    }
  }

  /** Replacing one element changes a real sum by the difference. */
  lemma {:induction false} SumRealUpdate<T>(s: seq<T>, k: nat, x: T, f: T -> real)
    requires k < |s|
    ensures SumReal(s[k := x], f) == SumReal(s, f) - f(s[k]) + f(x)
  {
    if k == 0 {
      assert s[k := x][1..] == s[1..];
    } else {
      assert s[k := x][1..] == s[1..][k - 1 := x];
      SumRealUpdate(s[1..], k - 1, x, f);
    }
  }

  /** No value occurs twice. */
  predicate Distinct<T(==)>(s: seq<T>) {
    forall i, j :: 0 <= i < j < |s| ==> s[i] != s[j]
  }

  /** `r` holds of every pair of elements, taken in list order. */
  predicate Pairwise<T>(s: seq<T>, r: (T, T) -> bool) {
    forall i, j :: 0 <= i < j < |s| ==> r(s[i], s[j])
  }

  /** Filtering keeps a pairwise property: the result is a subsequence. */
  lemma {:induction false} FilterPairwise<T>(s: seq<T>, f: T -> bool, r: (T, T) -> bool)
    requires Pairwise(s, r)
    ensures Pairwise(Filter(s, f), r)
  {
    if s != [] {
      var tail := s[1..];
      assert Pairwise(tail, r) by {
        forall i, j | 0 <= i < j < |tail| ensures r(tail[i], tail[j]) {
          assert tail[i] == s[i + 1] && tail[j] == s[j + 1];
        }
      }
      FilterPairwise(tail, f, r);
      var t := Filter(tail, f);
      if f(s[0]) {
        forall x | x in t ensures r(s[0], x) {
          var k :| 0 <= k < |tail| && tail[k] == x;
          assert s[k + 1] == x;
        }
        var u := [s[0]] + t;
        assert Filter(s, f) == u;
        forall i, j | 0 <= i < j < |u| ensures r(u[i], u[j]) {
          assert u[j] == t[j - 1];
          if i > 0 {
            assert u[i] == t[i - 1];
          } else {
            assert u[j] in t;
          }
        }
      } else {
        assert Filter(s, f) == t;
      }
    }
  }

  /** Position of the first element satisfying `f` (`findIndex`), `|s|` for none. */
  function FirstWhere<T>(s: seq<T>, f: T -> bool): (k: nat)
    ensures k <= |s|
    ensures forall j :: 0 <= j < k ==> !f(s[j])
    ensures k < |s| ==> f(s[k])
  {
    if s == [] then 0 else if f(s[0]) then 0 else 1 + FirstWhere(s[1..], f)
  }

  /** The first position of `f` is the one position with no match before it and a match at it. */
  lemma {:induction false} FirstWhereIs<T>(s: seq<T>, f: T -> bool, k: nat)
    requires k <= |s|
    requires forall j :: 0 <= j < k ==> !f(s[j])
    requires k < |s| ==> f(s[k])
    ensures FirstWhere(s, f) == k
  {
  }

  /** `Array.prototype.find`: the first element satisfying `f`. */
  function Find<T>(s: seq<T>, f: T -> bool): (r: Option<T>)
    ensures r.None? <==> forall x | x in s :: !f(x)
    ensures r.Some? ==> FirstWhere(s, f) < |s| && r.value == s[FirstWhere(s, f)]
  {
    if s == [] then None
    else if f(s[0]) then Some(s[0])
    else
      var r := Find(s[1..], f);
      assert forall x | x in s[1..] :: x in s;
      r
  }

  /** Looking past a new last element only when nothing earlier matches. */
  lemma {:induction false} FindAppend<T>(s: seq<T>, x: T, f: T -> bool)
    ensures Find(s + [x], f) == if Find(s, f).Some? then Find(s, f) else if f(x) then Some(x) else None
  {
    if s != [] {
      assert (s + [x])[1..] == s[1..] + [x];
      FindAppend(s[1..], x, f);
    }
  }

  /** Filtering away only elements that `f` rejects does not change what `Find` finds. */
  lemma {:induction false} FindFilter<T>(s: seq<T>, f: T -> bool, g: T -> bool)
    requires forall x :: f(x) ==> g(x)
    ensures Find(Filter(s, g), f) == Find(s, f)
  {
    if s != [] {
      var tail := Filter(s[1..], g);
      FindFilter(s[1..], f, g);
      if g(s[0]) {
        var t := [s[0]] + tail;
        assert Filter(s, g) == t;
        assert t[0] == s[0] && t[1..] == tail;
      } else {
        assert Filter(s, g) == tail;
      }
    }
  }

  /** `s.map(x => f(x) ? h(x) : x)`. */
  function MapWhere<T>(s: seq<T>, f: T -> bool, h: T -> T): (r: seq<T>)
    ensures |r| == |s|
  {
    seq(|s|, k requires 0 <= k < |s| => if f(s[k]) then h(s[k]) else s[k])
  }

  /** Lookups the update cannot touch: every element it rewrites is rejected
      by `g` before and after. */
  lemma {:induction false} FindMapOther<T>(s: seq<T>, f: T -> bool, h: T -> T, g: T -> bool)
    requires forall x :: f(x) ==> !g(x) && !g(h(x))
    ensures Find(MapWhere(s, f, h), g) == Find(s, g)
  {
    if s != [] {
      assert MapWhere(s, f, h)[1..] == MapWhere(s[1..], f, h);
      FindMapOther(s[1..], f, h, g);
    }
  }

  /** Looking up what the update rewrites finds the rewritten element, when
      the rewrite keeps it matching. */
  lemma {:induction false} FindMapSame<T>(s: seq<T>, f: T -> bool, h: T -> T)
    requires forall x :: f(x) ==> f(h(x))
    ensures Find(MapWhere(s, f, h), f) == if Find(s, f).Some? then Some(h(Find(s, f).value)) else None
  {
    if s != [] {
      assert MapWhere(s, f, h)[1..] == MapWhere(s[1..], f, h);
      FindMapSame(s[1..], f, h);
    }
  }

  /** Each rewritten element weighs one more under `g`, so the total grows by the number rewritten. */
  lemma {:induction false} SumIntMapWhere<T>(s: seq<T>, f: T -> bool, h: T -> T, g: T -> int)
    requires forall x :: f(x) ==> g(h(x)) == g(x) + 1
    ensures SumInt(MapWhere(s, f, h), g) == SumInt(s, g) + Count(s, f)
  {
    if s != [] {
      assert MapWhere(s, f, h)[1..] == MapWhere(s[1..], f, h);
      SumIntMapWhere(s[1..], f, h, g);
    }
  }
}
