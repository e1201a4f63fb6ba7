/**
 The two insertion sorts over type lists. Both place an element in front of the first one
 it compares below, so equivalent elements come out in the reverse of their input order:
 the result is the stable sort of the reversed input, which is unique.
 */
module TypeListSort {

  ghost predicate StrictWeakOrder<T(!new)>(less: (T, T) -> bool) {
    && (forall x :: !less(x, x))
    && (forall x, y, z :: less(x, y) && less(y, z) ==> less(x, z))
    && (forall x, y, z :: Equivalent(less, x, y) && Equivalent(less, y, z) ==> Equivalent(less, x, z))
  }

  predicate Equivalent<T>(less: (T, T) -> bool, x: T, y: T) {
    !less(x, y) && !less(y, x)
  }

  function InsertSorted<T>(ts: seq<T>, x: T, less: (T, T) -> bool): seq<T> {
    if ts == [] then [x]
    else
      var newTail := if less(x, ts[0]) then ts else InsertSorted(ts[1..], x, less);
      var newHead := if less(x, ts[0]) then x else ts[0];
      [newHead] + newTail
  }

  function InsertionSort<T>(ts: seq<T>, less: (T, T) -> bool): seq<T> {
    if ts == [] then [] else InsertSorted(InsertionSort(ts[1..], less), ts[0], less)
  }

  // ----- the second implementation: a flag tells the empty list, front and pop take a list apart -----

  function InsertByFlag<T>(ts: seq<T>, x: T, less: (T, T) -> bool, empty: bool): seq<T>
    requires empty <==> ts == []
    decreases |ts|
  {
    match empty
    case true => [x]
    case false =>
      var front, popped := ts[0], ts[1..];
      var newTail := if less(x, front) then ts else InsertByFlag(popped, x, less, popped == []);
      [if less(x, front) then x else front] + newTail
  }

  function SortByFlag<T>(ts: seq<T>, less: (T, T) -> bool, empty: bool): seq<T>
    requires empty <==> ts == []
    decreases |ts|
  {
    match empty
    case true => ts
    case false =>
      var sorted := SortByFlag(ts[1..], less, ts[1..] == []);
      InsertByFlag(sorted, ts[0], less, sorted == [])
  }

  lemma {:induction false} InsertsAgree<T>(ts: seq<T>, x: T, less: (T, T) -> bool)
    ensures InsertByFlag(ts, x, less, ts == []) == InsertSorted(ts, x, less)
  {
    if ts != [] && !less(x, ts[0]) {
      InsertsAgree(ts[1..], x, less);
    }
  }

  /** Both implementations return the same list for every list and every comparison. */
  lemma {:induction false} SortsAgree<T>(ts: seq<T>, less: (T, T) -> bool)
    ensures SortByFlag(ts, less, ts == []) == InsertionSort(ts, less)
  {
    if ts != [] {
      SortsAgree(ts[1..], less);
      InsertsAgree(InsertionSort(ts[1..], less), ts[0], less);
    }
  }

  ghost predicate Sorted<T(!new)>(ts: seq<T>, less: (T, T) -> bool) {
    forall i, j :: 0 <= i < j < |ts| ==> !less(ts[j], ts[i])
  }

  /** The elements equivalent to `x`, in list order. */
  function Class<T>(ts: seq<T>, x: T, less: (T, T) -> bool): seq<T> {
    if ts == [] then []
    else (if Equivalent(less, ts[0], x) then [ts[0]] else []) + Class(ts[1..], x, less)
  }

  function Reversed<T>(ts: seq<T>): seq<T> {
    if ts == [] then [] else Reversed(ts[1..]) + [ts[0]]
  }

  /** `r` is a stable sort of `ts`: ordered, and every equivalence class keeps its order. */
  ghost predicate StableSortOf<T(!new)>(r: seq<T>, ts: seq<T>, less: (T, T) -> bool) {
    Sorted(r, less) && forall x :: Class(r, x, less) == Class(ts, x, less)
  }

  lemma ClassCons<T>(h: T, t: seq<T>, x: T, less: (T, T) -> bool)
    ensures Class([h] + t, x, less) == (if Equivalent(less, h, x) then [h] else []) + Class(t, x, less)
  {
    assert ([h] + t)[1..] == t;
  }

  lemma {:induction false} ClassConcat<T>(a: seq<T>, b: seq<T>, x: T, less: (T, T) -> bool)
    ensures Class(a + b, x, less) == Class(a, x, less) + Class(b, x, less)
  {
    if a == [] {
      assert a + b == b;
    } else {
      var h, t := a[0], a[1..];
      ClassConcat(t, b, x, less);
      ClassCons(h, t, x, less);
      ClassCons(h, t + b, x, less);
      assert a == [h] + t && a + b == [h] + (t + b);
    }
  }

  lemma {:induction false} ClassEmpty<T>(ts: seq<T>, x: T, less: (T, T) -> bool)
    requires forall t :: t in ts ==> !Equivalent(less, t, x)
    ensures Class(ts, x, less) == []
  {
    if ts != [] {
      ClassEmpty(ts[1..], x, less);
    }
  }

  lemma {:induction false} ClassMember<T>(ts: seq<T>, x: T, y: T, less: (T, T) -> bool)
    ensures y in Class(ts, x, less) <==> y in ts && Equivalent(less, y, x)
  {
    if ts != [] {
      ClassMember(ts[1..], x, y, less);
      assert ts == [ts[0]] + ts[1..];
    }
  }

  lemma {:induction false} InsertMembers<T>(ts: seq<T>, x: T, y: T, less: (T, T) -> bool)
    ensures y in InsertSorted(ts, x, less) <==> y == x || y in ts
  {
    if ts != [] && !less(x, ts[0]) {
      InsertMembers(ts[1..], x, y, less);
      assert ts == [ts[0]] + ts[1..];
    }
  }

  lemma {:induction false} InsertKeepsSorted<T(!new)>(ts: seq<T>, x: T, less: (T, T) -> bool)
    requires StrictWeakOrder(less) && Sorted(ts, less)
    ensures Sorted(InsertSorted(ts, x, less), less)
  {
    if ts != [] {
      if less(x, ts[0]) {
        forall j | 0 <= j < |ts| ensures !less(ts[j], x) {
          var h, t := ts[0], ts[j];
          assert !less(t, h);
          assert less(t, x) && less(x, h) ==> less(t, h);
        }
      } else {
        InsertKeepsSorted(ts[1..], x, less);
        var tail := InsertSorted(ts[1..], x, less);
        forall j | 0 <= j < |tail| ensures !less(tail[j], ts[0]) {
          InsertMembers(ts[1..], x, tail[j], less);
        }
      }
    }
  }

  /** Incomparability is transitive, so `x < h` and `h <= t` give `x < t`, and `t` is not in the class of `x`. */
  lemma BelowHead<T(!new)>(less: (T, T) -> bool, x: T, h: T, t: T)
    requires StrictWeakOrder(less) && less(x, h) && !less(t, h)
    ensures less(x, t)
    ensures forall y :: Equivalent(less, x, y) ==> !Equivalent(less, t, y)
  {
    assert less(t, x) ==> less(t, h);
    assert less(h, t) ==> less(x, t);
    assert !Equivalent(less, x, h);
    assert Equivalent(less, x, t) && Equivalent(less, t, h) ==> Equivalent(less, x, h);
    forall y | Equivalent(less, x, y) ensures !Equivalent(less, t, y) {
      assert Equivalent(less, t, y) ==> Equivalent(less, y, t);
    }
  }

  lemma {:induction false} InsertClass<T(!new)>(ts: seq<T>, x: T, y: T, less: (T, T) -> bool)
    requires StrictWeakOrder(less) && Sorted(ts, less)
    ensures Class(InsertSorted(ts, x, less), y, less)
         == Class(ts, y, less) + (if Equivalent(less, x, y) then [x] else [])
  {
    if ts != [] {
      if less(x, ts[0]) {
        ClassCons(x, ts, y, less);
        InsertedBelow(ts, x, y, less);
      } else {
        InsertClass(ts[1..], x, y, less);
        ClassCons(ts[0], InsertSorted(ts[1..], x, less), y, less);
      }
    }
  }

  /** In front of an ordered list whose head it is below, `x` has no equivalents behind it. */
  lemma InsertedBelow<T(!new)>(ts: seq<T>, x: T, y: T, less: (T, T) -> bool)
    requires StrictWeakOrder(less) && Sorted(ts, less) && ts != [] && less(x, ts[0])
    ensures Equivalent(less, x, y) ==> Class(ts, y, less) == []
  {
    if Equivalent(less, x, y) {
      forall t | t in ts ensures !Equivalent(less, t, y) {
        NotBelowHead(ts, t, less);
        BelowHead(less, x, ts[0], t);
      }
      ClassEmpty(ts, y, less);
    }
  }

  lemma NotBelowHead<T(!new)>(ts: seq<T>, t: T, less: (T, T) -> bool)
    requires StrictWeakOrder(less) && Sorted(ts, less) && t in ts
    ensures !less(t, ts[0])
  {
    var i :| 0 <= i < |ts| && ts[i] == t;
  }

  /** The main result, for every list and every strict weak order. */
  lemma {:induction false} SortIsStableSortOfReverse<T(!new)>(ts: seq<T>, less: (T, T) -> bool)
    requires StrictWeakOrder(less)
    ensures StableSortOf(InsertionSort(ts, less), Reversed(ts), less)
  {
    if ts != [] {
      var tail := InsertionSort(ts[1..], less);
      SortIsStableSortOfReverse(ts[1..], less);
      InsertKeepsSorted(tail, ts[0], less);
      forall x ensures Class(InsertionSort(ts, less), x, less) == Class(Reversed(ts), x, less) {
        InsertClass(tail, ts[0], x, less);
        ClassConcat(Reversed(ts[1..]), [ts[0]], x, less);
        assert Class([ts[0]], x, less) == if Equivalent(less, ts[0], x) then [ts[0]] else [];
      }
    }
  }

  lemma HeadsAgree<T(!new)>(a: seq<T>, b: seq<T>, less: (T, T) -> bool)
    requires StrictWeakOrder(less) && a != [] && b != [] && Sorted(b, less)
    requires forall x :: Class(a, x, less) == Class(b, x, less)
    ensures !less(a[0], b[0])
  {
    ClassMember(a, a[0], a[0], less);
    ClassMember(b, a[0], a[0], less);
    var j :| 0 <= j < |b| && b[j] == a[0];
  }

  /** A list has at most one stable sort, so the conditions above determine the result. */
  lemma {:induction false} StableSortIsUnique<T(!new)>(a: seq<T>, b: seq<T>, less: (T, T) -> bool)
    requires StrictWeakOrder(less) && Sorted(a, less) && Sorted(b, less)
    requires forall x :: Class(a, x, less) == Class(b, x, less)
    ensures a == b
  {
    if a == [] || b == [] {
      if a != [] { ClassMember(b, a[0], a[0], less); ClassMember(a, a[0], a[0], less); }
      if b != [] { ClassMember(a, b[0], b[0], less); ClassMember(b, b[0], b[0], less); }
    } else {
      HeadsAgree(a, b, less);
      HeadsAgree(b, a, less);
      assert Equivalent(less, a[0], b[0]);
      assert Class(a, a[0], less)[0] == a[0] && Class(b, a[0], less)[0] == b[0];
      forall x ensures Class(a[1..], x, less) == Class(b[1..], x, less) {
        assert Class(a, x, less) == Class(b, x, less);
        assert Equivalent(less, a[0], x) <==> Equivalent(less, b[0], x) by {
          assert Equivalent(less, b[0], a[0]);
        }
        if Equivalent(less, a[0], x) {
          assert Class(a[1..], x, less) == Class(a, x, less)[1..];
          assert Class(b[1..], x, less) == Class(b, x, less)[1..];
        } else {
          assert Class(a[1..], x, less) == Class(a, x, less);
          assert Class(b[1..], x, less) == Class(b, x, less);
        }
      }
      StableSortIsUnique(a[1..], b[1..], less);
      assert a == [a[0]] + a[1..] && b == [b[0]] + b[1..];
    }
  }

  lemma {:induction false} InsertPermutes<T>(ts: seq<T>, x: T, less: (T, T) -> bool)
    ensures multiset(InsertSorted(ts, x, less)) == multiset(ts) + multiset{x}
  {
    if ts != [] {
      assert ts == [ts[0]] + ts[1..];
      if !less(x, ts[0]) {
        InsertPermutes(ts[1..], x, less);
      }
    }
  }

  lemma {:induction false} SortPermutes<T>(ts: seq<T>, less: (T, T) -> bool)
    ensures multiset(InsertionSort(ts, less)) == multiset(ts)
  {
    if ts != [] {
      SortPermutes(ts[1..], less);
      InsertPermutes(InsertionSort(ts[1..], less), ts[0], less);
      assert ts == [ts[0]] + ts[1..];
    }
  }

  /** Being a stable sort of the reversed input characterises the output exactly. */
  lemma SortIsTheStableSort<T(!new)>(ts: seq<T>, r: seq<T>, less: (T, T) -> bool)
    requires StrictWeakOrder(less)
    ensures StableSortOf(r, Reversed(ts), less) <==> r == InsertionSort(ts, less)
  {
    SortIsStableSortOfReverse(ts, less);
    if StableSortOf(r, Reversed(ts), less) {
      StableSortIsUnique(r, InsertionSort(ts, less), less);
    }
  }
}
