/**
 * The `Array.prototype` operations the quote engine relies on (`findIndex`, `find`,
 * `filter`, a stable `sort` with a comparator, and `splice(i, 1)`), as functions on
 * sequences. A comparator `cmp` is represented by `le(a, b)`, true when `cmp(a, b) <= 0`,
 * i.e. when `a` may stay ahead of `b`.
 */
module ArrayOps {
  import opened Types

  /** `findIndex`: the first index whose element satisfies `p`, or -1. */
  function FindIndex<T>(s: seq<T>, p: T -> bool): (r: int)
    ensures -1 <= r < |s|
    ensures r == -1 <==> forall k :: 0 <= k < |s| ==> !p(s[k])
    ensures 0 <= r ==> p(s[r]) && forall k :: 0 <= k < r ==> !p(s[k])
  {
    if s == [] then -1
    else if p(s[0]) then 0
    else
      var i := FindIndex(s[1..], p);
      if i == -1 then -1 else i + 1
  }

  /** `find`: the first element satisfying `p`, or none (`undefined`). */
  function Find<T>(s: seq<T>, p: T -> bool): (r: Option<T>)
    ensures r.None? <==> forall k :: 0 <= k < |s| ==> !p(s[k])
    ensures r.Some? ==> exists j :: 0 <= j < |s| && s[j] == r.value && p(s[j]) &&
                                    forall k :: 0 <= k < j ==> !p(s[k])
  {
    var i := FindIndex(s, p);
    if i == -1 then None else Some(s[i])
  }

  /** When `s[j]` is the only element satisfying `p`, `find` returns it. */
  lemma FindOnlyMatch<T>(s: seq<T>, p: T -> bool, j: int)
    requires 0 <= j < |s| && p(s[j])
    requires forall k :: 0 <= k < |s| && k != j ==> !p(s[k])
    ensures Find(s, p) == Some(s[j])
  {
  }

  /** `filter`: the elements satisfying `p`, in their original order. */
  function Filter<T(!new)>(s: seq<T>, p: T -> bool): (r: seq<T>)
    ensures |r| <= |s|
    ensures forall x :: x in r <==> x in s && p(x)
  {
    if s == [] then []
    else (if p(s[0]) then [s[0]] else []) + Filter(s[1..], p)
  }

  /** Filtering an extended sequence filters the prefix and then the new element. */
  lemma {:induction false} FilterSnoc<T(!new)>(s: seq<T>, x: T, p: T -> bool)
    ensures Filter(s + [x], p) == Filter(s, p) + if p(x) then [x] else []
  {
    var last := if p(x) then [x] else [];
    if s == [] {
      assert [x][1..] == [];
    } else {
      var head := if p(s[0]) then [s[0]] else [];
      assert (s + [x])[0] == s[0] && (s + [x])[1..] == s[1..] + [x];
      FilterSnoc(s[1..], x, p);
      calc {
        Filter(s + [x], p);
        head + Filter(s[1..] + [x], p);
        head + (Filter(s[1..], p) + last);
        (head + Filter(s[1..], p)) + last;
      }
    }
  }

  /** `splice(findIndex(p), 1)` when some element satisfies `p`; otherwise the sequence is kept. */
  function RemoveFirst<T>(s: seq<T>, p: T -> bool): (r: seq<T>)
    ensures r == s <==> forall k :: 0 <= k < |s| ==> !p(s[k])
    ensures forall i :: 0 <= i < |s| && p(s[i]) && (forall k :: 0 <= k < i ==> !p(s[k])) ==>
                        r == s[..i] + s[i + 1..]
  {
    var i := FindIndex(s, p);
    if i == -1 then s else s[..i] + s[i + 1..]
  }

  /** When at most one element satisfies `p`, none is left after `RemoveFirst`. */
  lemma RemoveFirstOfUnique<T>(s: seq<T>, p: T -> bool)
    requires forall i, j :: 0 <= i < j < |s| && p(s[i]) ==> !p(s[j])
    ensures forall x :: x in RemoveFirst(s, p) ==> !p(x)
  {
    var i := FindIndex(s, p);
    if i != -1 {
      var r := RemoveFirst(s, p);
      assert r == s[..i] + s[i + 1..];
      forall x | x in r ensures !p(x) {
        var k :| 0 <= k < |r| && r[k] == x;
        if k >= i {
          assert x == s[k + 1];
        }
      }
    }
  }

  /** Places `x` ahead of the first element it may precede (`le(x, y)`). */
  function InsertInOrder<T>(x: T, u: seq<T>, le: (T, T) -> bool): (r: seq<T>)
    ensures multiset(r) == multiset(u) + multiset{x}
    ensures |r| == |u| + 1
    ensures r[0] == if u == [] || le(x, u[0]) then x else u[0]
  {
    if u == [] || le(x, u[0]) then [x] + u
    else
      assert u == [u[0]] + u[1..];
      [u[0]] + InsertInOrder(x, u[1..], le)
  }

  /**
   * `sort(cmp)` on a copy, as a stable insertion sort: each element is inserted ahead of
   * the later ones it may precede, so elements the comparator ties keep their order.
   */
  function StableSort<T>(s: seq<T>, le: (T, T) -> bool): (r: seq<T>)
    ensures multiset(r) == multiset(s)
    ensures |r| == |s|
  {
    if s == [] then []
    else
      assert s == [s[0]] + s[1..];
      InsertInOrder(s[0], StableSort(s[1..], le), le)
  }

  /** `le` is a total preorder: the comparator is consistent. */
  ghost predicate TotalPreorder<T(!new)>(le: (T, T) -> bool)
  {
    && (forall a, b :: le(a, b) || le(b, a))
    && (forall a, b, c :: le(a, b) && le(b, c) ==> le(a, c))
  }

  ghost predicate SortedBy<T>(s: seq<T>, le: (T, T) -> bool)
  {
    forall i, j :: 0 <= i < j < |s| ==> le(s[i], s[j])
  }

  lemma {:induction false} InsertInOrderSorted<T(!new)>(x: T, u: seq<T>, le: (T, T) -> bool)
    requires TotalPreorder(le)
    requires SortedBy(u, le)
    ensures SortedBy(InsertInOrder(x, u, le), le)
  {
    var r := InsertInOrder(x, u, le);
    if u == [] || le(x, u[0]) {
      forall i, j | 0 <= i < j < |r| ensures le(r[i], r[j]) {
        if i == 0 {
          assert r[j] == u[j - 1];
          if j - 1 > 0 {
            assert le(u[0], u[j - 1]);
          }
        } else {
          assert r[i] == u[i - 1] && r[j] == u[j - 1];
        }
      }
    } else {
      var tail := InsertInOrder(x, u[1..], le);
      InsertInOrderSorted(x, u[1..], le);
      HeadPrecedesInsertion(x, u, le);
      assert r == [u[0]] + tail;
      forall i, j | 0 <= i < j < |r| ensures le(r[i], r[j]) {
        if i == 0 {
          assert r[j] == tail[j - 1];
        } else {
          assert r[i] == tail[i - 1] && r[j] == tail[j - 1];
        }
      }
    }
  }

  /** When `x` may not precede the head of a sorted `u`, that head may precede everything after it once `x` is inserted. */
  lemma HeadPrecedesInsertion<T(!new)>(x: T, u: seq<T>, le: (T, T) -> bool)
    requires TotalPreorder(le)
    requires SortedBy(u, le)
    requires u != [] && !le(x, u[0])
    ensures forall k :: 0 <= k < |u| ==> le(u[0], InsertInOrder(x, u[1..], le)[k])
  {
    var tail := InsertInOrder(x, u[1..], le);
    forall k | 0 <= k < |tail| ensures le(u[0], tail[k]) {
      var y := tail[k];
      assert y in multiset(tail);
      assert y in multiset(u[1..]) + multiset{x};
      if y != x {
        assert y in u[1..];
        var m :| 0 <= m < |u[1..]| && u[1..][m] == y;
        assert le(u[0], u[m + 1]);
      }
    }
  }

  /** The sorted copy is ordered by the comparator (and, by `StableSort`'s contract, a permutation). */
  lemma {:induction false} StableSortSorted<T(!new)>(s: seq<T>, le: (T, T) -> bool)
    requires TotalPreorder(le)
    ensures SortedBy(StableSort(s, le), le)
  {
    if s != [] {
      StableSortSorted(s[1..], le);
      InsertInOrderSorted(s[0], StableSort(s[1..], le), le);
    }
  }

  /** The elements the comparator ties with `x`: neither may be placed ahead of the other. */
  function TiesWith<T>(le: (T, T) -> bool, x: T): T -> bool
  {
    (y: T) => le(x, y) && le(y, x)
  }

  /** Filtering a sequence that starts with `a` decides `a` first, then filters the rest. */
  lemma FilterCons<T(!new)>(a: T, t: seq<T>, p: T -> bool)
    ensures Filter([a] + t, p) == (if p(a) then [a] else []) + Filter(t, p)
  {
    assert ([a] + t)[0] == a && ([a] + t)[1..] == t;
  }

  /**
   * Inserting `y` moves it past elements it may not precede; none of those ties with `x`
   * when `y` does, so the elements tied with `x` keep their relative order.
   */
  lemma {:induction false} InsertInOrderKeepsTies<T(!new)>(y: T, u: seq<T>, le: (T, T) -> bool, x: T)
    requires TotalPreorder(le)
    ensures Filter(InsertInOrder(y, u, le), TiesWith(le, x)) == Filter([y] + u, TiesWith(le, x))
  {
    var p := TiesWith(le, x);
    if u != [] && !le(y, u[0]) {
      var rest := InsertInOrder(y, u[1..], le);
      InsertInOrderKeepsTies(y, u[1..], le, x);
      FilterCons(u[0], rest, p);
      FilterCons(y, u[1..], p);
      assert u == [u[0]] + u[1..];
      FilterCons(u[0], u[1..], p);
      FilterCons(y, u, p);
      assert InsertInOrder(y, u, le) == [u[0]] + rest;
      if p(u[0]) {
        assert !p(y);
        assert Filter([y] + u, p) == Filter(u, p);
        assert Filter(rest, p) == Filter(u[1..], p);
      } else {
        assert Filter(u, p) == Filter(u[1..], p);
        assert Filter(InsertInOrder(y, u, le), p) == Filter(rest, p);
      }
    }
  }

  /**
   * Stability: the sorted copy lists the elements the comparator ties with `x` in the
   * order they had in the input.
   */
  lemma {:induction false} StableSortKeepsTies<T(!new)>(s: seq<T>, le: (T, T) -> bool, x: T)
    requires TotalPreorder(le)
    ensures Filter(StableSort(s, le), TiesWith(le, x)) == Filter(s, TiesWith(le, x))
  {
    if s != [] {
      var p := TiesWith(le, x);
      StableSortKeepsTies(s[1..], le, x);
      InsertInOrderKeepsTies(s[0], StableSort(s[1..], le), le, x);
      FilterCons(s[0], StableSort(s[1..], le), p);
      FilterCons(s[0], s[1..], p);
      assert s == [s[0]] + s[1..];
    }
  }
}
