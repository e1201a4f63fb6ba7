/**
 Type lists read as ordinary sequences: the accumulating `unique` of the state-machine
 library and the right-recursive `remove_duplicates` of the type-list library, both
 compared with one reference definition, the first occurrences of each element.
 */
module TypeLists {

  ghost predicate Distinct<T(!new)>(s: seq<T>) {
    forall i, j :: 0 <= i < j < |s| ==> s[i] != s[j]
  }

  /** The reference: keep an element exactly when no earlier position holds it. */
  function FirstOccurrences<T(==)>(ts: seq<T>): seq<T> {
    if ts == [] then []
    else
      var before := ts[..|ts| - 1];
      var last := ts[|ts| - 1];
      FirstOccurrences(before) + (if last in before then [] else [last])
  }

  lemma {:induction false} FirstOccurrencesSpec<T(!new)>(ts: seq<T>)
    ensures Distinct(FirstOccurrences(ts))
    ensures forall x :: x in FirstOccurrences(ts) <==> x in ts
  {
    if ts != [] {
      var before, last := ts[..|ts| - 1], ts[|ts| - 1];
      FirstOccurrencesSpec(before);
      assert ts == before + [last];
    }
  }

  lemma FirstOccurrencesExtend<T>(p: seq<T>, t: T)
    ensures FirstOccurrences(p + [t]) == if t in p then FirstOccurrences(p) else FirstOccurrences(p) + [t]
  {
    assert (p + [t])[..|p + [t]| - 1] == p;
  }

  // ----- `unique`, left to right with an accumulator -----

  function UniqueFrom<T(==)>(seen: seq<T>, ts: seq<T>): seq<T>
    decreases |ts|
  {
    if ts == [] then seen
    else if ts[0] in seen then UniqueFrom(seen, ts[1..])
    else UniqueFrom(seen + [ts[0]], ts[1..])
  }

  /** Elements already seen add nothing. */
  lemma {:induction false} UniqueFromSeen<T>(seen: seq<T>, ts: seq<T>)
    requires forall t :: t in ts ==> t in seen
    ensures UniqueFrom(seen, ts) == seen
    decreases |ts|
  {
    if ts != [] {
      UniqueFromSeen(seen, ts[1..]);
    }
  }

  function Unique<T(==)>(ts: seq<T>): seq<T> {
    if |ts| == 1 then ts else UniqueFrom([], ts)
  }

  lemma {:induction false} UniqueFromPrefix<T(!new)>(p: seq<T>, ts: seq<T>)
    ensures UniqueFrom(FirstOccurrences(p), ts) == FirstOccurrences(p + ts)
    decreases |ts|
  {
    if ts == [] {
      assert p + ts == p;
    } else {
      FirstOccurrencesSpec(p);
      FirstOccurrencesExtend(p, ts[0]);
      UniqueFromPrefix(p + [ts[0]], ts[1..]);
      assert p + [ts[0]] + ts[1..] == p + ts;
    }
  }

  // ----- `erase` (one occurrence) and `remove_duplicates` (right recursion) -----

  function Erase<T(==)>(ts: seq<T>, t: T): seq<T>
    requires ts != []
  {
    if |ts| == 1 then (if t == ts[0] then [] else ts)
    else if t == ts[0] then ts[1..]
    else [ts[0]] + Erase(ts[1..], t)
  }

  /** The pruned tail is never empty where `Erase` needs an element. */
  function RemoveDuplicates<T(==)>(ts: seq<T>): (r: seq<T>)
    ensures ts != [] ==> r != []
  {
    if |ts| <= 1 then ts
    else [ts[0]] + Erase(RemoveDuplicates(ts[1..]), ts[0])
  }

  lemma {:induction false} EraseExtend<T>(ts: seq<T>, x: T, t: T)
    requires ts != []
    ensures Erase(ts + [x], t) == if t in ts then Erase(ts, t) + [x] else if t == x then ts else ts + [x]
  {
    if |ts| > 1 {
      assert (ts + [x])[1..] == ts[1..] + [x];
      if t != ts[0] {
        EraseExtend(ts[1..], x, t);
        assert ts == [ts[0]] + ts[1..];
      }
    } else {
      assert (ts + [x])[1..] == [x];
    }
  }

  lemma FirstOccurrencesOne<T(!new)>(x: T)
    ensures FirstOccurrences([x]) == [x]
  {
    FirstOccurrencesExtend([], x);
    assert [] + [x] == [x];
  }

  lemma {:induction false} FirstOccurrencesCons<T(!new)>(h: T, ts: seq<T>)
    requires ts != []
    ensures FirstOccurrences(ts) != []
    ensures FirstOccurrences([h] + ts) == [h] + Erase(FirstOccurrences(ts), h)
  {
    var before, x := ts[..|ts| - 1], ts[|ts| - 1];
    assert ts == before + [x];
    if before == [] {
      assert ts == [x];
      FirstOccurrencesOne(h);
      FirstOccurrencesOne(x);
      FirstOccurrencesExtend([h], x);
    } else {
      FirstOccurrencesCons(h, before);
      FirstOccurrencesStep(h, before, x);
    }
  }

  /** What erasing from the first occurrences does when one more element arrives. */
  lemma EraseFirstOccurrences<T(!new)>(h: T, before: seq<T>, x: T)
    requires before != [] && x !in before
    ensures FirstOccurrences(before) != []
    ensures var fo := FirstOccurrences(before);
            Erase(fo + [x], h) == if x in [h] + before then Erase(fo, h) else Erase(fo, h) + [x]
  {
    var fo := FirstOccurrences(before);
    FirstOccurrencesSpec(before);
    assert before[0] in fo;
    EraseExtend(fo, x, h);
    if h !in before {
      EraseAbsent(fo, h);
    }
  }

  /** The first occurrences of `[h] + (before + [x])`, with the list taken apart at its end. */
  lemma FirstOccurrencesAround<T(!new)>(h: T, before: seq<T>, x: T)
    ensures FirstOccurrences([h] + (before + [x])) ==
      if x in [h] + before then FirstOccurrences([h] + before) else FirstOccurrences([h] + before) + [x]
  {
    FirstOccurrencesExtend([h] + before, x);
    assert [h] + (before + [x]) == ([h] + before) + [x];
  }

  lemma FirstOccurrencesStep<T(!new)>(h: T, before: seq<T>, x: T)
    requires before != [] && FirstOccurrences(before) != []
    requires FirstOccurrences([h] + before) == [h] + Erase(FirstOccurrences(before), h)
    ensures FirstOccurrences(before + [x]) != []
    ensures FirstOccurrences([h] + (before + [x])) == [h] + Erase(FirstOccurrences(before + [x]), h)
  {
    if x in before {
      StepRepeated(h, before, x);
    } else if x == h {
      StepHead(h, before);
    } else {
      StepNew(h, before, x);
    }
  }

  lemma StepRepeated<T(!new)>(h: T, before: seq<T>, x: T)
    requires x in before
    ensures FirstOccurrences(before + [x]) == FirstOccurrences(before)
    ensures FirstOccurrences([h] + (before + [x])) == FirstOccurrences([h] + before)
  {
    FirstOccurrencesExtend(before, x);
    FirstOccurrencesAround(h, before, x);
    assert x in [h] + before;
  }

  lemma StepHead<T(!new)>(h: T, before: seq<T>)
    requires before != [] && h !in before && FirstOccurrences(before) != []
    ensures FirstOccurrences(before + [h]) != []
    ensures Erase(FirstOccurrences(before + [h]), h) == Erase(FirstOccurrences(before), h)
    ensures FirstOccurrences([h] + (before + [h])) == FirstOccurrences([h] + before)
  {
    FirstOccurrencesExtend(before, h);
    FirstOccurrencesAround(h, before, h);
    EraseFirstOccurrences(h, before, h);
  }

  lemma StepNew<T(!new)>(h: T, before: seq<T>, x: T)
    requires before != [] && x !in before && x != h && FirstOccurrences(before) != []
    requires FirstOccurrences([h] + before) == [h] + Erase(FirstOccurrences(before), h)
    ensures FirstOccurrences(before + [x]) != []
    ensures FirstOccurrences([h] + (before + [x])) == [h] + Erase(FirstOccurrences(before + [x]), h)
  {
    var erased := Erase(FirstOccurrences(before), h);
    FirstOccurrencesExtend(before, x);
    FirstOccurrencesAround(h, before, x);
    EraseFirstOccurrences(h, before, x);
    Around(h, erased, x);
  }

  lemma Around<T>(h: T, ts: seq<T>, x: T)
    ensures ([h] + ts) + [x] == [h] + (ts + [x])
  {
  }

  lemma {:induction false} EraseAbsent<T>(ts: seq<T>, t: T)
    requires ts != [] && t !in ts
    ensures Erase(ts, t) == ts
  {
    if |ts| > 1 {
      EraseAbsent(ts[1..], t);
    }
  }

  lemma {:induction false} RemoveDuplicatesIsFirstOccurrences<T(!new)>(ts: seq<T>)
    ensures RemoveDuplicates(ts) == FirstOccurrences(ts)
  {
    if |ts| == 1 {
      FirstOccurrencesExtend([], ts[0]);
      assert [] + [ts[0]] == ts;
    } else if |ts| > 1 {
      var h, rest := ts[0], ts[1..];
      assert ts == [h] + rest;
      RemoveDuplicatesIsFirstOccurrences(rest);
      FirstOccurrencesCons(h, rest);
    }
  }

  /** Both libraries compute the same list on every input: the first occurrences. */
  lemma UniqueIsRemoveDuplicates<T(!new)>(ts: seq<T>)
    ensures Unique(ts) == RemoveDuplicates(ts) == FirstOccurrences(ts)
    ensures Distinct(Unique(ts))
    ensures forall x :: x in Unique(ts) <==> x in ts
  {
    RemoveDuplicatesIsFirstOccurrences(ts);
    FirstOccurrencesSpec(ts);
    UniqueFromPrefix([], ts);
    assert [] + ts == ts;
  }

  lemma {:induction false} DistinctIsFixed<T(!new)>(ts: seq<T>)
    requires Distinct(ts)
    ensures FirstOccurrences(ts) == ts
  {
    if ts != [] {
      var before, x := ts[..|ts| - 1], ts[|ts| - 1];
      assert ts == before + [x];
      DistinctPrefix(before, x);
      DistinctIsFixed(before);
      FirstOccurrencesExtend(before, x);
    }
  }

  lemma DistinctPrefix<T(!new)>(before: seq<T>, x: T)
    requires Distinct(before + [x])
    ensures Distinct(before) && x !in before
  {
    var ts := before + [x];
    assert forall i :: 0 <= i < |before| ==> ts[i] == before[i];
    assert ts[|before|] == x;
  }

  lemma {:induction false} FirstOccurrencesNotLonger<T>(ts: seq<T>)
    ensures |FirstOccurrences(ts)| <= |ts|
  {
    if ts != [] {
      FirstOccurrencesNotLonger(ts[..|ts| - 1]);
    }
  }

  lemma UniqueIsNotLonger<T(!new)>(ts: seq<T>)
    ensures |Unique(ts)| <= |ts|
  {
    UniqueIsRemoveDuplicates(ts);
    FirstOccurrencesNotLonger(ts);
  }

  lemma UniqueIsIdempotent<T(!new)>(ts: seq<T>)
    ensures Unique(Unique(ts)) == Unique(ts)
  {
    UniqueIsRemoveDuplicates(ts);
    UniqueIsRemoveDuplicates(Unique(ts));
    DistinctIsFixed(Unique(ts));
  }

  /** Position of the first occurrence; `|ts|` when there is none. */
  function IndexOf<T(==)>(ts: seq<T>, x: T): (i: nat)
    ensures i <= |ts| && (i < |ts| <==> x in ts)
    ensures i < |ts| ==> ts[i] == x && x !in ts[..i]
  {
    if ts == [] then 0
    else if ts[0] == x then 0
    else 1 + IndexOf(ts[1..], x)
  }

  lemma IndexOfDistinct<T(!new)>(ts: seq<T>, i: nat)
    requires Distinct(ts) && i < |ts|
    ensures IndexOf(ts, ts[i]) == i
  {
    assert ts[i] in ts;
    var j := IndexOf(ts, ts[i]);
    assert ts[j] == ts[i];
  }
}
