/** Names in one total order, code unit by code unit, and sorted lists of them. */
module NameOrder {
  import opened Basics

  /** x < y on strings. */
  predicate Less(x: string, y: string) {
    y != "" && (x == "" || x[0] < y[0] || (x[0] == y[0] && Less(x[1..], y[1..])))
  }

  lemma {:induction false} LessIsStrict(x: string, y: string)
    ensures Less(x, y) ==> !Less(y, x) && x != y
    ensures !Less(x, y) && !Less(y, x) ==> x == y
  {
    if x != "" && y != "" && x[0] == y[0] {
      LessIsStrict(x[1..], y[1..]);
      assert x == [x[0]] + x[1..] && y == [y[0]] + y[1..];
    }
  }

  lemma {:induction false} LessIsTransitive(x: string, y: string, z: string)
    ensures Less(x, y) && Less(y, z) ==> Less(x, z)
  {
    if x != "" && y != "" && z != "" { LessIsTransitive(x[1..], y[1..], z[1..]); }
  }

  predicate AtMost(x: string, y: string) { !Less(y, x) }

  lemma AtMostIsTransitive(x: string, y: string, z: string)
    ensures AtMost(x, y) && AtMost(y, z) ==> AtMost(x, z)
  {
    LessIsStrict(y, x);
    LessIsStrict(z, y);
    LessIsStrict(x, y);
    LessIsStrict(y, z);
    LessIsTransitive(z, x, y);
    LessIsTransitive(y, z, x);
    LessIsTransitive(x, y, z);
    LessIsStrict(z, x);
  }

  /** No element comes after a greater one. */
  ghost predicate Ordered(names: seq<string>) {
    forall i, j | 0 <= i < j < |names| :: AtMost(names[i], names[j])
  }

  function InsertName(x: string, sorted: seq<string>): seq<string> {
    if sorted == [] || !Less(sorted[0], x) then [x] + sorted else [sorted[0]] + InsertName(x, sorted[1..])
  }

  /** names.sort() */
  function SortNames(names: seq<string>): seq<string> {
    if names == [] then [] else InsertName(names[0], SortNames(names[1..]))
  }

  lemma {:induction false} InsertKeeps(x: string, sorted: seq<string>)
    requires Ordered(sorted)
    ensures Ordered(InsertName(x, sorted)) && multiset(InsertName(x, sorted)) == multiset{x} + multiset(sorted)
  {
    if sorted == [] || !Less(sorted[0], x) {
      forall j | 0 <= j < |sorted| ensures AtMost(x, sorted[j]) {
        if j > 0 { assert AtMost(sorted[0], sorted[j]); AtMostIsTransitive(x, sorted[0], sorted[j]); }
      }
    } else {
      InsertKeeps(x, sorted[1..]);
      assert sorted == [sorted[0]] + sorted[1..];
      LessIsStrict(sorted[0], x);
      OrderedCons(sorted[0], sorted[1..], x, InsertName(x, sorted[1..]));
    }
  }

  lemma OrderedCons(first: string, tail: seq<string>, x: string, rest: seq<string>)
    requires Ordered([first] + tail) && AtMost(first, x) && Ordered(rest)
      && multiset(rest) == multiset{x} + multiset(tail)
    ensures Ordered([first] + rest)
  {
    hide AtMost;
    forall j | 0 <= j < |rest| ensures AtMost(first, rest[j]) {
      assert rest[j] in multiset(rest);
      if rest[j] != x {
        var i :| 0 <= i < |tail| && tail[i] == rest[j];
        assert ([first] + tail)[0] == first && ([first] + tail)[i + 1] == tail[i];
      }
    }
    forall i, j | 0 <= i < j < |[first] + rest| ensures AtMost(([first] + rest)[i], ([first] + rest)[j]) {
      assert ([first] + rest)[j] == rest[j - 1];
      assert i > 0 ==> ([first] + rest)[i] == rest[i - 1];
    }
  }

  lemma {:induction false} SortIsSorting(names: seq<string>)
    ensures Ordered(SortNames(names)) && multiset(SortNames(names)) == multiset(names)
  {
    if names != [] {
      SortIsSorting(names[1..]);
      InsertKeeps(names[0], SortNames(names[1..]));
      assert names == [names[0]] + names[1..];
    }
  }

  lemma FirstsAgree(xs: seq<string>, ys: seq<string>)
    requires Ordered(xs) && Ordered(ys) && multiset(xs) == multiset(ys) && xs != [] && ys != []
    ensures xs[0] == ys[0]
  {
    hide Less;
    assert xs[0] in multiset(xs) && ys[0] in multiset(ys);
    var i :| 0 <= i < |ys| && ys[i] == xs[0];
    var j :| 0 <= j < |xs| && xs[j] == ys[0];
    LessIsStrict(xs[0], ys[0]);
    if i > 0 && j > 0 {
      assert AtMost(ys[0], ys[i]) && AtMost(xs[0], xs[j]);
    }
  }

  lemma TailElements(xs: seq<string>)
    requires xs != []
    ensures multiset(xs[1..]) == multiset(xs) - multiset{xs[0]}
  {
    assert xs == [xs[0]] + xs[1..];
  }

  /** Two ordered lists of the same elements are the same list. */
  lemma {:induction false} OrderedIsUnique(xs: seq<string>, ys: seq<string>)
    requires Ordered(xs) && Ordered(ys) && multiset(xs) == multiset(ys)
    ensures xs == ys
  {
    hide AtMost;
    if xs == [] {
      assert |ys| == |multiset(ys)| == 0;
    } else {
      assert |ys| == |multiset(ys)| == |multiset(xs)| == |xs|;
      FirstsAgree(xs, ys);
      TailElements(xs);
      TailElements(ys);
      OrderedIsUnique(xs[1..], ys[1..]);
      assert xs == [xs[0]] + xs[1..] && ys == [ys[0]] + ys[1..];
    }
  }

  lemma {:induction false} DistinctCounts(xs: seq<string>, x: string)
    requires NoRepeats(xs)
    ensures multiset(xs)[x] == if x in xs then 1 else 0
  {
    if xs != [] {
      assert xs == [xs[0]] + xs[1..];
      DistinctCounts(xs[1..], x);
    }
  }

  lemma SameDistinct(xs: seq<string>, ys: seq<string>)
    requires NoRepeats(xs) && NoRepeats(ys) && forall x :: x in xs <==> x in ys
    ensures multiset(xs) == multiset(ys)
  {
    forall x ensures multiset(xs)[x] == multiset(ys)[x] {
      DistinctCounts(xs, x);
      DistinctCounts(ys, x);
    }
  }

  lemma SortKeepsElements(names: seq<string>)
    ensures forall x :: x in SortNames(names) <==> x in names
  {
    SortIsSorting(names);
    forall x ensures x in SortNames(names) <==> x in names {
      assert x in SortNames(names) <==> x in multiset(SortNames(names));
      assert x in names <==> x in multiset(names);
    }
  }

  lemma EmptyOfSort(names: seq<string>)
    ensures SortNames(names) == [] <==> names == []
  {
    SortIsSorting(names);
    if names != [] { assert names[0] in multiset(names); }
  }
}
