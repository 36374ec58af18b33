/**
 * The array combinators the editor uses on its lists (`filter`, `map` with a
 * per-element condition, `findIndex`, `filter` by position, `splice`), each
 * defined once here with the facts the rest of the model relies on.
 */
module Seqs {

  import opened Opt

  /** `s.filter(keep)`: the elements that satisfy `keep`, in their original order. */
  function Filter<T>(s: seq<T>, keep: T -> bool): (r: seq<T>)
    ensures |r| <= |s|
    ensures forall x :: x in r ==> x in s && keep(x)
  {
    if s == [] then [] else (if keep(s[0]) then [s[0]] else []) + Filter(s[1..], keep)
  }

  /** Filtering distributes over concatenation, so it keeps the relative order of what it keeps. */
  lemma {:induction false} FilterAppend<T>(a: seq<T>, b: seq<T>, keep: T -> bool)
    ensures Filter(a + b, keep) == Filter(a, keep) + Filter(b, keep)
  {
    if a == [] {
      assert a + b == b;
    } else {
      assert (a + b)[0] == a[0];
      assert (a + b)[1..] == a[1..] + b;
      FilterAppend(a[1..], b, keep);
    }
  }

  /** Every element that satisfies `keep` survives the filter. */
  lemma {:induction false} FilterKeeps<T>(s: seq<T>, keep: T -> bool, x: T)
    requires x in s && keep(x)
    ensures x in Filter(s, keep)
  {
    if s[0] != x {
      FilterKeeps(s[1..], keep, x);
    }
  }

  /** An element is in the filtered list exactly when it is in the list and satisfies `keep`. */
  lemma FilterExactly<T>(s: seq<T>, keep: T -> bool)
    ensures forall x :: x in Filter(s, keep) <==> x in s && keep(x)
  {
    forall x | x in s && keep(x)
      ensures x in Filter(s, keep)
    {
      FilterKeeps(s, keep, x);
    }
  }

  /** When every element satisfies `keep`, the filter returns its input. */
  lemma {:induction false} FilterAll<T>(s: seq<T>, keep: T -> bool)
    requires forall i :: 0 <= i < |s| ==> keep(s[i])
    ensures Filter(s, keep) == s
  {
    if s != [] {
      FilterAll(s[1..], keep);
    }
  }

  /** The number of elements of `s` that satisfy `p`. */
  function Count<T>(s: seq<T>, p: T -> bool): (n: nat)
    ensures n <= |s|
  {
    if s == [] then 0 else (if p(s[0]) then 1 else 0) + Count(s[1..], p)
  }

  /** The filter removes exactly the elements that fail `keep`. */
  lemma {:induction false} FilterLength<T>(s: seq<T>, keep: T -> bool)
    ensures |Filter(s, keep)| == Count(s, keep)
  {
    if s != [] {
      FilterLength(s[1..], keep);
    }
  }

  /** When no element satisfies `p`, the count is zero; when all do, it is the length. */
  lemma {:induction false} CountExtremes<T>(s: seq<T>, p: T -> bool)
    ensures (forall i :: 0 <= i < |s| ==> !p(s[i])) ==> Count(s, p) == 0
    ensures (forall i :: 0 <= i < |s| ==> p(s[i])) ==> Count(s, p) == |s|
  {
    if s != [] {
      CountExtremes(s[1..], p);
    }
  }

  /** `s.map(x => hit(x) ? f(x) : x)`: rewrite the elements `hit` selects, leave the others as they are. */
  function MapWhere<T>(s: seq<T>, hit: T -> bool, f: T -> T): (r: seq<T>)
    ensures |r| == |s|
    ensures forall i :: 0 <= i < |s| ==> r[i] == if hit(s[i]) then f(s[i]) else s[i]
  {
    seq(|s|, i requires 0 <= i < |s| => if hit(s[i]) then f(s[i]) else s[i])
  }

  /**
   * Applying an involution twice to the elements it selects restores the list,
   * provided the rewrite never changes whether an element is selected.
   */
  lemma MapWhereTwice<T>(s: seq<T>, hit: T -> bool, f: T -> T)
    requires forall x :: hit(x) ==> hit(f(x)) && f(f(x)) == x
    ensures MapWhere(MapWhere(s, hit, f), hit, f) == s
  {
    var once := MapWhere(s, hit, f);
    var twice := MapWhere(once, hit, f);
    forall i | 0 <= i < |s|
      ensures twice[i] == s[i]
    {
      if hit(s[i]) {
        assert once[i] == f(s[i]);
      }
    }
  }

  /** `s.findIndex(p)`: the first position whose element satisfies `p`, or -1. */
  function IndexOf<T>(s: seq<T>, p: T -> bool): (i: int)
    ensures -1 <= i < |s|
    ensures i >= 0 ==> p(s[i]) && forall j :: 0 <= j < i ==> !p(s[j])
    ensures i == -1 ==> forall j :: 0 <= j < |s| ==> !p(s[j])
  {
    if s == [] then -1
    else if p(s[0]) then 0
    else
      var k := IndexOf(s[1..], p);
      if k == -1 then -1 else k + 1
  }

  /** `s.find(p)`: the first element that satisfies `p`, if there is one. */
  function Find<T>(s: seq<T>, p: T -> bool): (r: Option<T>)
    ensures r.Some? <==> exists j :: 0 <= j < |s| && p(s[j])
    ensures r.Some? ==> r.value == s[IndexOf(s, p)] && p(r.value)
  {
    var i := IndexOf(s, p);
    if i == -1 then None else Some(s[i])
  }

  /** `s.filter((_, j) => j !== i)`: drop the element at position `i` (nothing when `i` is out of range). */
  function WithoutIndex<T>(s: seq<T>, i: int): (r: seq<T>)
    ensures |r| == if 0 <= i < |s| then |s| - 1 else |s|
    ensures forall x :: x in r ==> x in s
  {
    if s == [] then [] else (if i == 0 then [] else [s[0]]) + WithoutIndex(s[1..], i - 1)
  }

  /** Dropping by position is slicing around that position, and the identity out of range. */
  lemma {:induction false} WithoutIndexSlices<T>(s: seq<T>, i: int)
    ensures WithoutIndex(s, i) == if 0 <= i < |s| then s[..i] + s[i + 1..] else s
  {
    if s != [] {
      var rest := WithoutIndex(s[1..], i - 1);
      WithoutIndexSlices(s[1..], i - 1);
      if i == 0 {
        assert WithoutIndex(s, i) == rest;
        assert rest == s[1..];
        assert s[..0] + s[1..] == s[1..];
      } else {
        assert WithoutIndex(s, i) == [s[0]] + rest;
        if 0 < i < |s| {
          DropInsideTail(s, i);
        } else {
          assert rest == s[1..];
          assert [s[0]] + s[1..] == s;
        }
      }
    }
  }

  /** Slicing around `i` is keeping the head and slicing the tail around `i - 1`. */
  lemma DropInsideTail<T>(s: seq<T>, i: int)
    requires 0 < i < |s|
    ensures [s[0]] + (s[1..][..i - 1] + s[1..][i..]) == s[..i] + s[i + 1..]
  {
    assert s[..i] == [s[0]] + s[1..][..i - 1];
    assert s[i + 1..] == s[1..][i..];
  }

  /** `s.splice(i, 1)` on a copy: the list without position `i`. */
  function RemoveAt<T>(s: seq<T>, i: nat): (r: seq<T>)
    requires i < |s|
    ensures |r| == |s| - 1
  {
    s[..i] + s[i + 1..]
  }

  /** `s.splice(i, 0, x)` on a copy: the list with `x` inserted before position `i`. */
  function InsertAt<T>(s: seq<T>, i: nat, x: T): (r: seq<T>)
    requires i <= |s|
    ensures |r| == |s| + 1
  {
    s[..i] + [x] + s[i..]
  }

  /** The list with the elements at positions `i` and `j` exchanged. */
  function Swap<T>(s: seq<T>, i: nat, j: nat): (r: seq<T>)
    requires i < |s| && j < |s|
    ensures |r| == |s| && r[i] == s[j] && r[j] == s[i]
    ensures forall k :: 0 <= k < |s| && k != i && k != j ==> r[k] == s[k]
    ensures multiset(r) == multiset(s)
  {
    s[i := s[j]][j := s[i]]
  }

  /**
   * Taking the element at `from` out and putting it back in at `to`: the
   * elements between the two positions shift by one towards `from`.
   */
  function Move<T>(s: seq<T>, from: nat, to: nat): (r: seq<T>)
    requires from < |s| && to < |s|
    ensures |r| == |s|
  {
    if from < to then s[..from] + s[from + 1..to + 1] + [s[from]] + s[to + 1..]
    else if to < from then s[..to] + [s[from]] + s[to..from] + s[from + 1..]
    else s
  }

  /** Moving an element keeps the multiset of elements. */
  lemma MoveKeepsMultiset<T>(s: seq<T>, from: nat, to: nat)
    requires from < |s| && to < |s|
    ensures multiset(Move(s, from, to)) == multiset(s)
  {
    if from < to {
      var a, x, b, c := s[..from], s[from], s[from + 1..to + 1], s[to + 1..];
      assert s == a + [x] + b + c;
      RotateMultiset(a, x, b, c);
    } else if to < from {
      var a, b, x, c := s[..to], s[to..from], s[from], s[from + 1..];
      assert s == a + b + [x] + c;
      RotateMultiset(a, x, b, c);
    }
  }

  lemma RotateMultiset<T>(a: seq<T>, x: T, b: seq<T>, c: seq<T>)
    ensures multiset(a + [x] + b + c) == multiset(a + b + [x] + c)
  {
  }

  /** Where each element of a moved list comes from. */
  lemma MoveElements<T>(s: seq<T>, from: nat, to: nat)
    requires from < |s| && to < |s|
    ensures Move(s, from, to)[to] == s[from]
    ensures forall m :: 0 <= m < |s| && m != to ==>
      Move(s, from, to)[m] == (if from < to && from <= m < to then s[m + 1]
                               else if to < from && to < m <= from then s[m - 1]
                               else s[m])
  {
    var r := Move(s, from, to);
    if from < to {
      assert r == s[..from] + s[from + 1..to + 1] + [s[from]] + s[to + 1..];
    } else if to < from {
      assert r == s[..to] + [s[from]] + s[to..from] + s[from + 1..];
    }
  }

  /** `Move` is the two splices on a copy: remove at `from`, insert at `to`. */
  lemma MoveIsSplice<T>(s: seq<T>, from: nat, to: nat)
    requires from < |s| && to < |s|
    ensures Move(s, from, to) == InsertAt(RemoveAt(s, from), to, s[from])
  {
    var t := RemoveAt(s, from);
    assert t == s[..from] + s[from + 1..];
    if from < to {
      assert t[..to] == s[..from] + s[from + 1..to + 1];
      assert t[to..] == s[to + 1..];
    } else if to < from {
      assert t[..to] == s[..to];
      assert t[to..] == s[to..from] + s[from + 1..];
    } else {
      assert t[..to] == s[..to];
      assert t[to..] == s[to + 1..];
      assert s == s[..to] + [s[from]] + s[to + 1..];
    }
  }

  /** Moving an element to a neighbouring position exchanges the two. */
  lemma MoveAdjacentIsSwap<T>(s: seq<T>, from: nat, to: nat)
    requires from < |s| && to < |s| && (to == from + 1 || from == to + 1)
    ensures Move(s, from, to) == Swap(s, from, to)
  {
    var r, w := Move(s, from, to), Swap(s, from, to);
    MoveElements(s, from, to);
    forall m | 0 <= m < |s|
      ensures r[m] == w[m]
    {
      if m != from && m != to {
        assert r[m] == s[m];
      }
    }
    assert |r| == |w|;
  }
}
