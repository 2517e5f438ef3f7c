/**
 * The parts of JavaScript's Array.prototype that the dashboard relies on:
 * `filter`, `filter(...).length`, `findIndex`, `find` and the two forms of
 * `splice` used by the drag-reorder, the latter as in-place array algorithms.
 */
module JsArray {
  import opened Optional

  /** `a` is obtained from `b` by deleting elements (order kept). */
  predicate IsSubsequence<T(==)>(a: seq<T>, b: seq<T>)
    decreases |b|
  {
    if a == [] then true
    else if b == [] then false
    else (a[0] == b[0] && IsSubsequence(a[1..], b[1..])) || IsSubsequence(a, b[1..])
  }

  /** No element occurs twice. */
  predicate Distinct<T(==)>(s: seq<T>) {
    forall i, j :: 0 <= i < j < |s| ==> s[i] != s[j]
  }

  /** `s.filter(p)`: the elements satisfying `p`, in their original order. */
  function Filter<T(==)>(s: seq<T>, p: T -> bool): (r: seq<T>)
    ensures |r| <= |s|
    ensures forall k :: 0 <= k < |r| ==> r[k] in s && p(r[k])
    ensures forall k :: 0 <= k < |s| && p(s[k]) ==> s[k] in r
    ensures IsSubsequence(r, s)
  {
    if s == [] then []
    else if p(s[0]) then [s[0]] + Filter(s[1..], p)
    else Filter(s[1..], p)
  }

  /** `filter` keeps every copy of a kept value and no copy of a dropped one. */
  lemma {:induction false} FilterMultiplicity<T>(s: seq<T>, p: T -> bool, x: T)
    ensures multiset(Filter(s, p))[x] == if p(x) then multiset(s)[x] else 0
  {
    if s != [] {
      var head := if p(s[0]) then [s[0]] else [];
      FilterMultiplicity(s[1..], p, x);
      FilterCons(s, p);
      assert s == [s[0]] + s[1..];
      assert multiset(s) == multiset([s[0]]) + multiset(s[1..]);
      assert multiset(Filter(s, p)) == multiset(head) + multiset(Filter(s[1..], p));
    }
  }

  /** One step of `filter`: the head is kept exactly when it satisfies `p`. */
  lemma FilterCons<T>(s: seq<T>, p: T -> bool)
    requires s != []
    ensures Filter(s, p) == (if p(s[0]) then [s[0]] else []) + Filter(s[1..], p)
  {
  }

  /** `s.filter(p).length`. */
  function Count<T(==)>(s: seq<T>, p: T -> bool): nat {
    |Filter(s, p)|
  }

  /** `s.findIndex(p)`: the first index satisfying `p`, or -1. */
  function FindIndex<T>(s: seq<T>, p: T -> bool): (k: int)
    ensures -1 <= k < |s|
    ensures k == -1 <==> forall m :: 0 <= m < |s| ==> !p(s[m])
    ensures 0 <= k ==> p(s[k]) && forall m :: 0 <= m < k ==> !p(s[m])
  {
    if s == [] then -1
    else if p(s[0]) then 0
    else var k := FindIndex(s[1..], p); if k == -1 then -1 else k + 1
  }

  /** `s.find(p)`: the first element satisfying `p`, or undefined. */
  function Find<T>(s: seq<T>, p: T -> bool): (r: Option<T>)
    ensures r.None? <==> forall m :: 0 <= m < |s| ==> !p(s[m])
    ensures r.Some? ==> r.value == s[FindIndex(s, p)]
  {
    var k := FindIndex(s, p);
    if k == -1 then None else Some(s[k])
  }

  /** The sequence after `splice(i, 1)`. */
  function RemoveAt<T>(s: seq<T>, i: nat): (r: seq<T>)
    requires i < |s|
  {
    s[..i] + s[i + 1..]
  }

  /** The sequence after `splice(j, 0, x)`. */
  function InsertAt<T>(s: seq<T>, j: nat, x: T): (r: seq<T>)
    requires j <= |s|
  {
    s[..j] + [x] + s[j..]
  }

  /** Remove the element at `i`, then insert it at index `j` of what is left. */
  function Move<T>(s: seq<T>, i: nat, j: nat): (r: seq<T>)
    requires i < |s| && j < |s|
  {
    InsertAt(RemoveAt(s, i), j, s[i])
  }

  /** 1 when `x` satisfies `p`, else 0. */
  function Indicator<T>(p: T -> bool, x: T): nat {
    if p(x) then 1 else 0
  }

  /** One step of `filter(...).length`. */
  lemma CountCons<T>(s: seq<T>, p: T -> bool)
    requires s != []
    ensures Count(s, p) == Indicator(p, s[0]) + Count(s[1..], p)
  {
  }

  /** `filter(...).length` over six elements, element by element. */
  lemma CountOfSix<T>(s: seq<T>, p: T -> bool)
    requires |s| == 6
    ensures Count(s, p) == Indicator(p, s[0]) + Indicator(p, s[1]) + Indicator(p, s[2])
                         + Indicator(p, s[3]) + Indicator(p, s[4]) + Indicator(p, s[5])
  {
    CountCons(s[5..], p);
    assert s[5..][1..] == [];
    CountCons(s[4..], p);
    assert s[4..][1..] == s[5..];
    CountCons(s[3..], p);
    assert s[3..][1..] == s[4..];
    CountCons(s[2..], p);
    assert s[2..][1..] == s[3..];
    CountCons(s[1..], p);
    assert s[1..][1..] == s[2..];
    CountCons(s, p);
  }

  /** `filter` distributes over concatenation. */
  lemma {:induction false} FilterAppend<T>(a: seq<T>, b: seq<T>, p: T -> bool)
    ensures Filter(a + b, p) == Filter(a, p) + Filter(b, p)
  {
    if a != [] {
      assert (a + b)[1..] == a[1..] + b;
      FilterAppend(a[1..], b, p);
      FilterCons(a + b, p);
      FilterCons(a, p);
    } else {
      assert a + b == b;
    }
  }

  lemma {:induction false} FilterIdempotent<T>(s: seq<T>, p: T -> bool)
    ensures Filter(Filter(s, p), p) == Filter(s, p)
  {
    if s != [] {
      FilterIdempotent(s[1..], p);
      if p(s[0]) {
        assert ([s[0]] + Filter(s[1..], p))[1..] == Filter(s[1..], p);
      }
    }
  }

  lemma {:induction false} FilterKeepsAll<T>(s: seq<T>, p: T -> bool)
    requires forall k :: 0 <= k < |s| ==> p(s[k])
    ensures Filter(s, p) == s
  {
    if s != [] {
      FilterKeepsAll(s[1..], p);
      assert [s[0]] + s[1..] == s;
    }
  }

  lemma {:induction false} FilterCongruent<T>(s: seq<T>, p: T -> bool, q: T -> bool)
    requires forall k :: 0 <= k < |s| ==> p(s[k]) == q(s[k])
    ensures Filter(s, p) == Filter(s, q)
  {
    if s != [] {
      FilterCongruent(s[1..], p, q);
    }
  }

  /** Counting elements that satisfy `p` and those that do not covers the sequence. */
  lemma {:induction false} FilterKeepsNone<T>(s: seq<T>, p: T -> bool)
    requires forall k :: 0 <= k < |s| ==> !p(s[k])
    ensures Filter(s, p) == []
  {
    if s != [] {
      FilterKeepsNone(s[1..], p);
    }
  }

  lemma {:induction false} CountComplement<T>(s: seq<T>, p: T -> bool, q: T -> bool)
    requires forall k :: 0 <= k < |s| ==> q(s[k]) == !p(s[k])
    ensures Count(s, p) + Count(s, q) == |s|
  {
    if s != [] {
      CountComplement(s[1..], p, q);
    }
  }

  /** Count of a two-way split: elements satisfying `p` are those satisfying `p && q` or `p && !q`. */
  lemma {:induction false} CountSplit<T>(s: seq<T>, p: T -> bool, pq: T -> bool, pnq: T -> bool)
    requires forall k :: 0 <= k < |s| ==> !(pq(s[k]) && pnq(s[k])) && (pq(s[k]) || pnq(s[k])) == p(s[k])
    ensures Count(s, p) == Count(s, pq) + Count(s, pnq)
  {
    if s != [] {
      CountSplit(s[1..], p, pq, pnq);
    }
  }

  lemma {:induction false} SubsequenceMembers<T>(a: seq<T>, b: seq<T>)
    requires IsSubsequence(a, b)
    ensures forall k :: 0 <= k < |a| ==> a[k] in b
    decreases |b|
  {
    if a != [] {
      if a[0] == b[0] && IsSubsequence(a[1..], b[1..]) {
        SubsequenceMembers(a[1..], b[1..]);
        assert forall k :: 1 <= k < |a| ==> a[k] == a[1..][k - 1];
      } else {
        SubsequenceMembers(a, b[1..]);
      }
    }
  }

  lemma DistinctTail<T>(s: seq<T>)
    requires Distinct(s) && s != []
    ensures Distinct(s[1..]) && s[0] !in s[1..]
  {
    forall i, j | 0 <= i < j < |s[1..]| ensures s[1..][i] != s[1..][j] {
      assert s[1..][i] == s[i + 1] && s[1..][j] == s[j + 1];
    }
    forall k | 0 <= k < |s[1..]| ensures s[1..][k] != s[0] {
      assert s[1..][k] == s[k + 1];
    }
  }

  /** In a duplicate-free sequence every value occurs at most once. */
  lemma {:induction false} DistinctMultiplicity<T>(s: seq<T>, x: T)
    requires Distinct(s)
    ensures multiset(s)[x] <= 1
  {
    if s != [] {
      DistinctTail(s);
      DistinctMultiplicity(s[1..], x);
      assert s == [s[0]] + s[1..];
    }
  }

  /** A rearrangement of a duplicate-free sequence is duplicate-free. */
  lemma DistinctByMultiset<T>(a: seq<T>, b: seq<T>)
    requires multiset(a) == multiset(b) && Distinct(b)
    ensures Distinct(a)
  {
    forall i, j | 0 <= i < j < |a| ensures a[i] != a[j] {
      assert a == a[..j] + a[j..];
      assert a[j..] == [a[j]] + a[j + 1..];
      assert a[..j][i] == a[i];
      DistinctMultiplicity(b, a[j]);
    }
  }

  /** Deleting elements from a duplicate-free sequence leaves it duplicate-free. */
  lemma {:induction false} SubsequenceOfDistinct<T>(a: seq<T>, b: seq<T>)
    requires IsSubsequence(a, b) && Distinct(b)
    ensures Distinct(a)
    decreases |b|
  {
    if a != [] {
      DistinctTail(b);
      if a[0] == b[0] && IsSubsequence(a[1..], b[1..]) {
        SubsequenceOfDistinct(a[1..], b[1..]);
        SubsequenceMembers(a[1..], b[1..]);
        forall i, j | 0 <= i < j < |a| ensures a[i] != a[j] {
          if i == 0 {
            assert a[j] == a[1..][j - 1];
            assert a[j] in a[1..];
          } else {
            assert a[i] == a[1..][i - 1] && a[j] == a[1..][j - 1];
          }
        }
      } else {
        SubsequenceOfDistinct(a, b[1..]);
      }
    }
  }

  lemma MovePermutes<T>(s: seq<T>, i: nat, j: nat)
    requires i < |s| && j < |s|
    ensures |Move(s, i, j)| == |s|
    ensures multiset(Move(s, i, j)) == multiset(s)
  {
    var rest := RemoveAt(s, i);
    assert s == s[..i] + [s[i]] + s[i + 1..];
    assert rest[..j] + rest[j..] == rest;
    calc {
      multiset(Move(s, i, j));
      multiset(rest[..j]) + multiset([s[i]]) + multiset(rest[j..]);
      multiset(rest) + multiset([s[i]]);
      multiset(s[..i]) + multiset(s[i + 1..]) + multiset([s[i]]);
      multiset(s);
    }
  }

  lemma MovePlaces<T>(s: seq<T>, i: nat, j: nat)
    requires i < |s| && j < |s|
    ensures Move(s, i, j)[j] == s[i]
    ensures RemoveAt(Move(s, i, j), j) == RemoveAt(s, i)
  {
    var rest := RemoveAt(s, i);
    assert Move(s, i, j)[..j] == rest[..j];
    assert Move(s, i, j)[j + 1..] == rest[j..];
    assert rest[..j] + rest[j..] == rest;
  }

  /** Every element of `Move(s, i, j)`, by the index it came from. */
  lemma MoveAt<T>(s: seq<T>, i: nat, j: nat, k: nat)
    requires i < |s| && j < |s| && k < |s|
    ensures |Move(s, i, j)| == |s|
    ensures Move(s, i, j)[k] ==
      if k == j then s[i]
      else if i < j && i <= k < j then s[k + 1]
      else if j < i && j < k <= i then s[k - 1]
      else s[k]
  {
  }

  /** `splice(i, 1)` on the first `len` slots of `a`: the removed element,
      with the slots after it shifted down by one. */
  method SpliceOut<T>(a: array<T>, len: nat, i: nat) returns (removed: T)
    requires i < len <= a.Length
    modifies a
    ensures removed == old(a[i])
    ensures a[..len - 1] == RemoveAt(old(a[..len]), i)
    ensures a[len - 1..] == old(a[len - 1..])
  {
    removed := a[i];
    var k := i;
    while k < len - 1
      invariant i <= k <= len - 1
      invariant forall m :: 0 <= m < i ==> a[m] == old(a[m])
      invariant forall m :: i <= m < k ==> a[m] == old(a[m + 1])
      invariant forall m :: k <= m < a.Length ==> a[m] == old(a[m])
    {
      a[k] := a[k + 1];
      k := k + 1;
    }
    assert a[..len - 1] == old(a[..len])[..i] + old(a[..len])[i + 1..];
  }

  /** `splice(j, 0, x)` on the first `len` slots of `a`: the slots from `j`
      on shifted up by one and `x` written at `j`. */
  method SpliceIn<T>(a: array<T>, len: nat, j: nat, x: T)
    requires j <= len < a.Length
    modifies a
    ensures a[..len + 1] == InsertAt(old(a[..len]), j, x)
    ensures a[len + 1..] == old(a[len + 1..])
  {
    var k := len;
    while k > j
      invariant j <= k <= len
      invariant forall m :: 0 <= m < k ==> a[m] == old(a[m])
      invariant forall m :: k < m <= len ==> a[m] == old(a[m - 1])
      invariant forall m :: len < m < a.Length ==> a[m] == old(a[m])
    {
      a[k] := a[k - 1];
      k := k - 1;
    }
    a[j] := x;
    assert a[..len + 1] == old(a[..len])[..j] + [x] + old(a[..len])[j..];
  }

  /** `const [removed] = a.splice(i, 1); a.splice(j, 0, removed);` on the whole array. */
  method MoveInPlace<T>(a: array<T>, i: nat, j: nat)
    requires i < a.Length && j < a.Length
    modifies a
    ensures a[..] == Move(old(a[..]), i, j)
  {
    ghost var s := a[..];
    var n := a.Length;
    assert a[..n] == s;
    var removed := SpliceOut(a, n, i);
    assert a[..n - 1] == RemoveAt(s, i) && removed == s[i];
    SpliceIn(a, n - 1, j, removed);
    assert a[..] == a[..n];
  }
}
