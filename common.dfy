/** Shared building blocks: an optional value, JavaScript numbers as reals with NaN,
    order-preserving filtering, prefix truncation (`Array.prototype.slice(0, n)`) and the
    stable descending sort that `Array.prototype.sort` performs with the engine's comparators. */
module Common {

  datatype Option<T> = None | Some(value: T)

  /** A JavaScript number as the engine uses it: a real value, or NaN when an operation
      on the unbounded initial minimum price produces one. */
  datatype Num = Finite(value: real) | NaN

  function MinReal(a: real, b: real): real { if a <= b then a else b }
  function MaxReal(a: real, b: real): real { if a >= b then a else b }
  function Abs(x: real): real { if x < 0.0 then -x else x }

  /** `Math.min(1.0, Math.max(0.5, x))`, which lets NaN through. */
  function Clamp(x: Num): (r: Num)
    ensures r.NaN? <==> x.NaN?
    ensures r.Finite? ==> 0.5 <= r.value <= 1.0
    ensures x.Finite? && 0.5 <= x.value <= 1.0 ==> r == x
  {
    match x
    case NaN => NaN
    case Finite(v) => Finite(MinReal(1.0, MaxReal(0.5, v)))
  }

  /** `Array.prototype.slice(0, n)`. */
  function Take<T>(s: seq<T>, n: nat): (r: seq<T>)
    ensures |r| == if n <= |s| then n else |s|
    ensures r == s[..|r|]
    ensures multiset(r) <= multiset(s)
  {
    if n <= |s| then
      assert s == s[..n] + s[n..];
      s[..n]
    else s
  }

  /** `Array.prototype.filter`: keeps, in order, the elements satisfying `keep`. */
  function Filter<T>(s: seq<T>, keep: T -> bool): (r: seq<T>)
    ensures |r| <= |s|
    ensures forall i :: 0 <= i < |r| ==> keep(r[i])
    ensures multiset(r) <= multiset(s)
  {
    if |s| == 0 then []
    else
      assert s == s[..|s| - 1] + [s[|s| - 1]];
      if keep(s[|s| - 1]) then Filter(s[..|s| - 1], keep) + [s[|s| - 1]]
      else Filter(s[..|s| - 1], keep)
  }

  /** An element a filter keeps is an element of its input. */
  lemma FilterKeepsMember<T>(s: seq<T>, keep: T -> bool, i: nat)
    requires i < |Filter(s, keep)|
    ensures Filter(s, keep)[i] in s
  {
    assert Filter(s, keep)[i] in multiset(Filter(s, keep));
  }

  /** A filter keeps every element satisfying its predicate. */
  lemma {:induction false} FilterKeepsAll<T>(s: seq<T>, keep: T -> bool, i: nat)
    requires i < |s| && keep(s[i])
    ensures s[i] in Filter(s, keep)
  {
    var init := s[..|s| - 1];
    if i < |s| - 1 {
      FilterKeepsAll(init, keep, i);
      assert init[i] == s[i];
    }
  }

  /** A filter whose predicate no element satisfies keeps nothing. */
  lemma {:induction false} FilterNone<T>(s: seq<T>, keep: T -> bool)
    requires forall x :: x in s ==> !keep(x)
    ensures Filter(s, keep) == []
  {
    if |s| > 0 {
      assert s[|s| - 1] in s;
      FilterNone(s[..|s| - 1], keep);
    }
  }

  /** The key a comparator looks at: a primary number and a tie-breaking secondary one. */
  datatype SortKey = SortKey(primary: Num, secondary: real)

  /** True when a comparator of the form `b.x - a.x` (falling back to the secondary key on a
      zero difference) places `a` strictly before `b`. A NaN difference reads as "equal". */
  predicate Outranks(a: SortKey, b: SortKey)
  {
    a.primary.Finite? && b.primary.Finite? &&
    (a.primary.value > b.primary.value ||
     (a.primary.value == b.primary.value && a.secondary > b.secondary))
  }

  lemma OutranksIsStrictOrder(a: SortKey, b: SortKey, c: SortKey)
    ensures !(Outranks(a, b) && Outranks(b, a))
    ensures Outranks(a, b) && Outranks(b, c) ==> Outranks(a, c)
  {
  }

  /** No element is outranked by a later one: sorted in descending order of the key. */
  ghost predicate SortedDesc<T>(s: seq<T>, key: T -> SortKey)
  {
    forall i, j :: 0 <= i < j < |s| ==> !Outranks(key(s[j]), key(s[i]))
  }

  /** Inserts `x` after every element it does not outrank, so equal keys keep their order. */
  function Insert<T>(x: T, s: seq<T>, key: T -> SortKey): (r: seq<T>)
    ensures multiset(r) == multiset(s) + multiset{x}
    ensures |r| == |s| + 1
  {
    if |s| == 0 then [x]
    else if Outranks(key(x), key(s[0])) then [x] + s
    else
      assert s == [s[0]] + s[1..];
      [s[0]] + Insert(x, s[1..], key)
  }

  /** Stable sort, descending by key: the list `Array.prototype.sort` returns for a
      consistent comparator. */
  function SortDesc<T>(s: seq<T>, key: T -> SortKey): (r: seq<T>)
    ensures multiset(r) == multiset(s)
    ensures |r| == |s|
  {
    if |s| == 0 then []
    else
      assert s == s[..|s| - 1] + [s[|s| - 1]];
      Insert(s[|s| - 1], SortDesc(s[..|s| - 1], key), key)
  }

  lemma {:induction false} InsertSorted<T>(x: T, s: seq<T>, key: T -> SortKey)
    requires SortedDesc(s, key)
    ensures SortedDesc(Insert(x, s, key), key)
  {
    if |s| == 0 {
    } else if Outranks(key(x), key(s[0])) {
      var r := [x] + s;
      forall i, j | 0 <= i < j < |r| ensures !Outranks(key(r[j]), key(r[i])) {
        if i == 0 {
          OutranksIsStrictOrder(key(s[j - 1]), key(x), key(s[0]));
          OutranksIsStrictOrder(key(x), key(s[0]), key(s[0]));
        }
      }
    } else {
      var t := Insert(x, s[1..], key);
      InsertSorted(x, s[1..], key);
      var r := [s[0]] + t;
      forall i, j | 0 <= i < j < |r| ensures !Outranks(key(r[j]), key(r[i])) {
        if i == 0 {
          assert r[j] in multiset(t);
          assert r[j] in multiset(s[1..]) + multiset{x};
          if r[j] != x {
            assert r[j] in s[1..];
            var k :| 0 <= k < |s[1..]| && s[1..][k] == r[j];
            assert s[k + 1] == r[j];
          }
        } else {
          assert r[i] == t[i - 1] && r[j] == t[j - 1];
        }
      }
    }
  }

  lemma {:induction false} SortDescSorted<T>(s: seq<T>, key: T -> SortKey)
    ensures SortedDesc(SortDesc(s, key), key)
  {
    if |s| > 0 {
      SortDescSorted(s[..|s| - 1], key);
      InsertSorted(s[|s| - 1], SortDesc(s[..|s| - 1], key), key);
    }
  }

  /** Stability, in the form the engine needs: a list that is already in order (in particular
      one whose keys are all NaN) comes back unchanged. */
  lemma {:induction false} SortDescKeepsSorted<T>(s: seq<T>, key: T -> SortKey)
    requires SortedDesc(s, key)
    ensures SortDesc(s, key) == s
  {
    if |s| > 0 {
      var init := s[..|s| - 1];
      var x := s[|s| - 1];
      assert SortedDesc(init, key) by {
        forall i, j | 0 <= i < j < |init| ensures !Outranks(key(init[j]), key(init[i])) {
          assert init[i] == s[i] && init[j] == s[j];
        }
      }
      SortDescKeepsSorted(init, key);
      forall i | 0 <= i < |init| ensures !Outranks(key(x), key(init[i])) {
        assert init[i] == s[i];
      }
      InsertAtEnd(x, init, key);
      assert init + [x] == s;
    }
  }

  lemma {:induction false} InsertAtEnd<T>(x: T, s: seq<T>, key: T -> SortKey)
    requires forall i :: 0 <= i < |s| ==> !Outranks(key(x), key(s[i]))
    ensures Insert(x, s, key) == s + [x]
  {
    if |s| > 0 {
      assert !Outranks(key(x), key(s[0]));
      forall i | 0 <= i < |s[1..]| ensures !Outranks(key(x), key(s[1..][i])) {
        assert s[1..][i] == s[i + 1];
      }
      InsertAtEnd(x, s[1..], key);
      assert [s[0]] + (s[1..] + [x]) == s + [x];
    }
  }

  /** A list whose every key is NaN is already in order. */
  lemma AllNaNIsSorted<T>(s: seq<T>, key: T -> SortKey)
    requires forall i :: 0 <= i < |s| ==> key(s[i]).primary.NaN?
    ensures SortedDesc(s, key)
  {
  }

  /** Truncating a sorted list keeps its best entries: nothing left out outranks anything kept. */
  lemma TakeKeepsBest<T>(s: seq<T>, n: nat, key: T -> SortKey)
    requires SortedDesc(s, key)
    ensures SortedDesc(Take(s, n), key)
    ensures forall i, j :: 0 <= i < |Take(s, n)| <= j < |s| ==> !Outranks(key(s[j]), key(Take(s, n)[i]))
  {
  }

  /** The first `n` of a sorted list are in order, come from the list, and are its best:
      nothing left out outranks anything kept. */
  lemma SortedPrefixIsBest<T>(s: seq<T>, n: nat, key: T -> SortKey)
    ensures |Take(SortDesc(s, key), n)| == if n <= |s| then n else |s|
    ensures SortedDesc(Take(SortDesc(s, key), n), key)
    ensures forall i :: 0 <= i < |Take(SortDesc(s, key), n)| ==> Take(SortDesc(s, key), n)[i] in s
    ensures forall x, i :: x in s && x !in Take(SortDesc(s, key), n) && 0 <= i < |Take(SortDesc(s, key), n)| ==>
              !Outranks(key(x), key(Take(SortDesc(s, key), n)[i]))
  {
    var sorted := SortDesc(s, key);
    var top := Take(sorted, n);
    SortDescSorted(s, key);
    TakeKeepsBest(sorted, n, key);
    forall i | 0 <= i < |top| ensures top[i] in s {
      assert top[i] in multiset(s);
    }
    forall x, i | x in s && x !in top && 0 <= i < |top| ensures !Outranks(key(x), key(top[i])) {
      assert x in multiset(sorted);
      var k :| 0 <= k < |sorted| && sorted[k] == x;
      assert k >= |top|;
    }
  }
}
