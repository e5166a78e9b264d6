/** The migration comparison of server/scripts/verify-db-restore.ts.  Names are compared in one total
    order, by code unit. */
module Migrations {
  import opened Basics
  import opened NameOrder

  /** A recorded migration; one without a time counts as applied first. */
  datatype Applied = Applied(name: string, at: Option<int>)

  // ------------------------------------------------------------------ the log in time order

  /** Earlier, or at the same time with the lesser name. */
  predicate Before(x: Applied, y: Applied) {
    if x.at == y.at then Less(x.name, y.name)
    else x.at.None? || (y.at.Some? && x.at.value < y.at.value)
  }

  function InsertApplied(x: Applied, sorted: seq<Applied>): seq<Applied> {
    if sorted == [] || !Before(sorted[0], x) then [x] + sorted else [sorted[0]] + InsertApplied(x, sorted[1..])
  }

  function SortApplied(log: seq<Applied>): seq<Applied> {
    if log == [] then [] else InsertApplied(log[0], SortApplied(log[1..]))
  }

  ghost predicate InTimeOrder(log: seq<Applied>) {
    forall i, j | 0 <= i < j < |log| :: !Before(log[j], log[i])
  }

  lemma NotBeforeIsTransitive(x: Applied, y: Applied, z: Applied)
    ensures !Before(y, x) && !Before(z, y) ==> !Before(z, x)
  {
    AtMostIsTransitive(x.name, y.name, z.name);
  }

  function Names(log: seq<Applied>): (names: seq<string>)
    ensures |names| == |log| && forall i | 0 <= i < |log| :: names[i] == log[i].name
  {
    seq(|log|, i requires 0 <= i < |log| => log[i].name)
  }

  lemma {:induction false} InsertAppliedKeeps(x: Applied, sorted: seq<Applied>)
    requires InTimeOrder(sorted)
    ensures InTimeOrder(InsertApplied(x, sorted))
      && multiset(InsertApplied(x, sorted)) == multiset{x} + multiset(sorted)
  {
    hide Less;
    if sorted == [] || !Before(sorted[0], x) {
      forall j | 0 <= j < |sorted| ensures !Before(sorted[j], x) {
        if j > 0 { NotBeforeIsTransitive(x, sorted[0], sorted[j]); }
      }
    } else {
      InsertAppliedKeeps(x, sorted[1..]);
      assert sorted == [sorted[0]] + sorted[1..];
      LessIsStrict(sorted[0].name, x.name);
      InTimeOrderCons(sorted[0], sorted[1..], x, InsertApplied(x, sorted[1..]));
    }
  }

  lemma InTimeOrderCons(first: Applied, tail: seq<Applied>, x: Applied, rest: seq<Applied>)
    requires InTimeOrder([first] + tail) && !Before(x, first)
    requires InTimeOrder(rest) && multiset(rest) == multiset{x} + multiset(tail)
    ensures InTimeOrder([first] + rest)
  {
    hide Before;
    forall j | 0 <= j < |rest| ensures !Before(rest[j], first) {
      assert rest[j] in multiset(rest);
      if rest[j] != x {
        var i :| 0 <= i < |tail| && tail[i] == rest[j];
        assert ([first] + tail)[0] == first && ([first] + tail)[i + 1] == tail[i];
      }
    }
    forall i, j | 0 <= i < j < |[first] + rest| ensures !Before(([first] + rest)[j], ([first] + rest)[i]) {
      assert ([first] + rest)[j] == rest[j - 1];
      assert i > 0 ==> ([first] + rest)[i] == rest[i - 1];
    }
  }

  lemma {:induction false} SortAppliedIsSorting(log: seq<Applied>)
    ensures InTimeOrder(SortApplied(log)) && multiset(SortApplied(log)) == multiset(log)
  {
    if log != [] {
      SortAppliedIsSorting(log[1..]);
      InsertAppliedKeeps(log[0], SortApplied(log[1..]));
      assert log == [log[0]] + log[1..];
    }
  }

  lemma NamesOfCons(a: Applied, log: seq<Applied>)
    ensures Names([a] + log) == [a.name] + Names(log)
  {
  }

  lemma {:induction false} InsertKeepsNames(x: Applied, sorted: seq<Applied>)
    ensures multiset(Names(InsertApplied(x, sorted))) == multiset{x.name} + multiset(Names(sorted))
  {
    if sorted == [] || !Before(sorted[0], x) {
      NamesOfCons(x, sorted);
    } else {
      InsertKeepsNames(x, sorted[1..]);
      NamesOfCons(sorted[0], InsertApplied(x, sorted[1..]));
      NamesOfCons(sorted[0], sorted[1..]);
      assert sorted == [sorted[0]] + sorted[1..];
    }
  }

  lemma {:induction false} SortKeepsNames(log: seq<Applied>)
    ensures multiset(Names(SortApplied(log))) == multiset(Names(log))
  {
    if log != [] {
      SortKeepsNames(log[1..]);
      InsertKeepsNames(log[0], SortApplied(log[1..]));
      NamesOfCons(log[0], log[1..]);
      assert log == [log[0]] + log[1..];
    }
  }

  function SetOf(names: seq<string>): set<string> { set x <- names :: x }

  /** [...new Set(names)] without the known ones. */
  function Outside(names: seq<string>, known: set<string>, n: nat): seq<string>
    requires n <= |names|
  {
    if n == 0 then []
    else
      var before := Outside(names, known, n - 1);
      if names[n - 1] in known || names[n - 1] in before then before else before + [names[n - 1]]
  }

  function Known(files: set<string>, log: seq<Applied>): seq<Applied> {
    if log == [] then []
    else (if log[0].name in files then [log[0]] else []) + Known(files, log[1..])
  }

  /** The known part of the log in time order, as names. */
  function Chronological(files: seq<string>, applied: seq<Applied>): seq<string> {
    Names(SortApplied(Known(SetOf(files), applied)))
  }

  /** names[i] comes after some greater name. */
  predicate Late(names: seq<string>, i: nat)
    requires i < |names|
  {
    exists j | 0 <= j < i :: Less(names[i], names[j])
  }

  function LateNames(names: seq<string>, n: nat): seq<string>
    requires n <= |names|
  {
    if n == 0 then [] else LateNames(names, n - 1) + (if Late(names, n - 1) then [names[n - 1]] else [])
  }

  // ------------------------------------------------------------------ compareMigrations

  datatype Comparison = Comparison(missing: seq<string>, unknown: seq<string>, outOfOrder: seq<string>)

  function Compare(files: seq<string>, applied: seq<Applied>): Comparison {
    var names := Names(applied);
    var chronological := Chronological(files, applied);
    Comparison(SortNames(Outside(files, SetOf(names), |files|)),
               SortNames(Outside(names, SetOf(files), |names|)),
               SortNames(LateNames(chronological, |chronological|)))
  }

  method CollectOutside(names: seq<string>, known: set<string>) returns (r: seq<string>)
    ensures r == Outside(names, known, |names|)
  {
    r := [];
    for i := 0 to |names|
      invariant r == Outside(names, known, i)
    {
      if names[i] !in known && names[i] !in r { r := r + [names[i]]; }
    }
  }

  /** The running maximum finds exactly the names applied after a greater one. */
  method OutOfOrder(chronological: seq<string>) returns (outOfOrder: seq<string>)
    ensures outOfOrder == LateNames(chronological, |chronological|)
  {
    outOfOrder := [];
    var maxName := "";
    for i := 0 to |chronological|
      invariant maxName == "" || maxName in chronological[..i]
      invariant forall j | 0 <= j < i :: AtMost(chronological[j], maxName)
      invariant outOfOrder == LateNames(chronological, i)
    {
      var name := chronological[i];
      LateMeansBelowMax(chronological, i, maxName);
      LessIsStrict(name, maxName);
      if Less(name, maxName) {
        outOfOrder := outOfOrder + [name];
      } else {
        forall j | 0 <= j < i ensures AtMost(chronological[j], name) {
          AtMostIsTransitive(chronological[j], maxName, name);
        }
        LessIsStrict(name, name);
        maxName := name;
      }
    }
  }

  lemma LateMeansBelowMax(names: seq<string>, i: nat, maxName: string)
    requires i < |names| && (maxName == "" || maxName in names[..i])
    requires forall j | 0 <= j < i :: AtMost(names[j], maxName)
    ensures Late(names, i) <==> Less(names[i], maxName)
  {
    if Late(names, i) {
      var j :| 0 <= j < i && Less(names[i], names[j]);
      if !Less(names[i], maxName) {
        AtMostIsTransitive(names[j], maxName, names[i]);
      }
    }
    if Less(names[i], maxName) {
      var j :| 0 <= j < i && names[j] == maxName;
    }
  }

  method CompareMigrations(files: seq<string>, applied: seq<Applied>) returns (r: Comparison)
    ensures r == Compare(files, applied)
  {
    var fileSet, appliedSet := SetOf(files), SetOf(Names(applied));
    var missing := CollectOutside(files, appliedSet);
    var unknown := CollectOutside(Names(applied), fileSet);
    var outOfOrder := OutOfOrder(Chronological(files, applied));
    r := Comparison(SortNames(missing), SortNames(unknown), SortNames(outOfOrder));
  }

  // ------------------------------------------------------------------ what the three lists say

  lemma {:induction false} OutsideIs(names: seq<string>, known: set<string>, n: nat)
    requires n <= |names|
    ensures NoRepeats(Outside(names, known, n))
    ensures forall x :: x in Outside(names, known, n) <==> x in names[..n] && x !in known
  {
    if n > 0 {
      OutsideIs(names, known, n - 1);
      assert names[..n] == names[..n - 1] + [names[n - 1]];
    }
  }

  /** `missing` are the files never recorded and `unknown` the records without a file, in order. */
  lemma MissingAndUnknown(files: seq<string>, applied: seq<Applied>)
    ensures var r := Compare(files, applied);
      && Ordered(r.missing) && Ordered(r.unknown) && Ordered(r.outOfOrder)
      && (forall x :: x in r.missing <==> x in files && x !in Names(applied))
      && (forall x :: x in r.unknown <==> x in Names(applied) && x !in files)
  {
    hide SortNames, Ordered;
    var names, chronological := Names(applied), Chronological(files, applied);
    OutsideIs(files, SetOf(names), |files|);
    OutsideIs(names, SetOf(files), |names|);
    assert files[..|files|] == files && names[..|names|] == names;
    var missing, unknown := Outside(files, SetOf(names), |files|), Outside(names, SetOf(files), |names|);
    SortIsSorting(missing);
    SortIsSorting(unknown);
    SortIsSorting(LateNames(chronological, |chronological|));
    SortKeepsElements(missing);
    SortKeepsElements(unknown);
  }

  lemma {:induction false} NoneLate(names: seq<string>, n: nat)
    requires n <= |names|
    ensures LateNames(names, n) == [] <==> forall i, j | 0 <= i < j < n :: AtMost(names[i], names[j])
  {
    if n > 0 {
      NoneLate(names, n - 1);
      if Late(names, n - 1) {
        var j :| 0 <= j < n - 1 && Less(names[n - 1], names[j]);
        assert !AtMost(names[j], names[n - 1]);
      }
    }
  }

  lemma {:induction false} AllKnown(files: set<string>, log: seq<Applied>)
    requires forall a <- log :: a.name in files
    ensures Known(files, log) == log
  {
    if log != [] {
      assert log[0] in log && (forall a <- log[1..] :: a in log);
      AllKnown(files, log[1..]);
      assert log == [log[0]] + log[1..];
    }
  }

  lemma LogNames(applied: seq<Applied>)
    ensures forall a <- applied :: a.name in Names(applied)
  {
    forall a <- applied ensures a.name in Names(applied) {
      var i :| 0 <= i < |applied| && applied[i] == a;
      assert Names(applied)[i] == a.name;
    }
  }

  /** Nothing is missing or unknown exactly when log and files have the same names. */
  lemma SameNames(files: seq<string>, applied: seq<Applied>)
    ensures var r := Compare(files, applied);
      r.missing == [] && r.unknown == [] <==> forall x :: x in files <==> x in Names(applied)
  {
    MissingAndUnknown(files, applied);
    var r := Compare(files, applied);
    if r.missing != [] { assert r.missing[0] in r.missing; }
    if r.unknown != [] { assert r.unknown[0] in r.unknown; }
  }

  /** With the same names, nothing is out of order exactly when the log in time order ascends. */
  lemma InOrderExactly(files: seq<string>, applied: seq<Applied>)
    requires forall x :: x in files <==> x in Names(applied)
    ensures Compare(files, applied).outOfOrder == [] <==> Ordered(Names(SortApplied(applied)))
  {
    hide SortNames, SortApplied;
    LogNames(applied);
    AllKnown(SetOf(files), applied);
    var chronological := Chronological(files, applied);
    EmptyOfSort(LateNames(chronological, |chronological|));
    NoneLate(chronological, |chronological|);
  }

  /** Main result: with distinct file names and distinct recorded names, all three lists are empty exactly
      when the log in time order is the sorted file list. */
  lemma CleanExactly(files: seq<string>, applied: seq<Applied>)
    requires NoRepeats(files) && NoRepeats(Names(applied))
    ensures Compare(files, applied) == Comparison([], [], []) <==> Names(SortApplied(applied)) == SortNames(files)
  {
    hide Compare, SortNames, SortApplied, Ordered, NoRepeats;
    var inTime := Names(SortApplied(applied));
    SortKeepsNames(applied);
    SortIsSorting(files);
    SameNames(files, applied);
    if forall x :: x in files <==> x in Names(applied) {
      InOrderExactly(files, applied);
      SameDistinct(files, Names(applied));
      if Ordered(inTime) { OrderedIsUnique(inTime, SortNames(files)); }
    } else {
      assert inTime != SortNames(files) by { DifferentNames(files, Names(applied), inTime, SortNames(files)); }
    }
  }

  lemma DifferentNames(xs: seq<string>, ys: seq<string>, xs': seq<string>, ys': seq<string>)
    requires multiset(xs) == multiset(ys') && multiset(ys) == multiset(xs')
    requires !forall x :: x in xs <==> x in ys
    ensures xs' != ys'
  {
    var x :| (x in xs) != (x in ys);
    assert x in xs <==> x in multiset(xs);
    assert x in ys <==> x in multiset(ys);
    assert multiset(xs)[x] != multiset(ys)[x];
  }
}
