/** Sums, maps and sorted unique lists over sequences, and what a permutation leaves alone. */
module Collections {
  import opened Wrappers
  import Ids

  function SumBy<T>(f: T -> int, items: seq<T>): int {
    if items == [] then 0 else SumBy(f, items[..|items| - 1]) + f(items[|items| - 1])
  }

  function MapBy<T, U>(f: T -> U, items: seq<T>): (r: seq<U>)
    ensures |r| == |items|
  {
    if items == [] then [] else MapBy(f, items[..|items| - 1]) + [f(items[|items| - 1])]
  }

  function FlatBy<T, U>(f: T -> seq<U>, items: seq<T>): seq<U> {
    if items == [] then [] else FlatBy(f, items[..|items| - 1]) + f(items[|items| - 1])
  }

  /** Maps every item, or gives nothing where one item has no image. */
  function TryMap<T, U>(f: T -> Option<U>, items: seq<T>): (r: Option<seq<U>>)
    ensures r.Some? ==> |r.value| == |items|
  {
    if items == [] then Some([])
    else
      var rest := TryMap(f, items[..|items| - 1]);
      if rest.None? then None
      else
        var last := f(items[|items| - 1]);
        if last.None? then None else Some(rest.value + [last.value])
  }

  /** The counts gathered from each item, added up. */
  function BagBy<T, U>(f: T -> multiset<U>, items: seq<T>): multiset<U> {
    if items == [] then multiset{} else BagBy(f, items[..|items| - 1]) + f(items[|items| - 1])
  }

  /** `dict.fromkeys`: the first occurrence of each item, in order. */
  function Dedup<T(==, !new)>(items: seq<T>): (r: seq<T>)
    ensures forall x :: x in r <==> x in items
    ensures forall i, j :: 0 <= i < j < |r| ==> r[i] != r[j]
  {
    if items == [] then []
    else
      var rest, last := Dedup(items[..|items| - 1]), items[|items| - 1];
      assert items == items[..|items| - 1] + [last];
      if last in rest then rest else rest + [last]
  }

  lemma {:induction false} TryMapAt<T, U>(f: T -> Option<U>, items: seq<T>, i: nat)
    requires i < |items| && TryMap(f, items).Some?
    ensures f(items[i]) == Some(TryMap(f, items).value[i])
  {
    if i < |items| - 1 {
      TryMapAt(f, items[..|items| - 1], i);
    }
  }

  lemma {:induction false} TryMapStops<T, U>(f: T -> Option<U>, items: seq<T>, i: nat)
    requires i < |items|
    requires f(items[i]).None?
    ensures TryMap(f, items).None?
  {
    if i < |items| - 1 {
      TryMapStops(f, items[..|items| - 1], i);
    }
  }

  lemma {:induction false} TryMapTotal<T, U>(f: T -> Option<U>, items: seq<T>)
    requires forall i :: 0 <= i < |items| ==> f(items[i]).Some?
    ensures TryMap(f, items).Some?
  {
    if items != [] {
      TryMapTotal(f, items[..|items| - 1]);
    }
  }

  lemma {:induction false} TryMapSame<T, U>(f: T -> Option<U>, g: T -> Option<U>, items: seq<T>)
    requires forall i :: 0 <= i < |items| ==> f(items[i]) == g(items[i])
    ensures TryMap(f, items) == TryMap(g, items)
  {
    if items != [] {
      TryMapSame(f, g, items[..|items| - 1]);
    }
  }

  lemma {:induction false} FlatSame<T, U>(f: T -> seq<U>, g: T -> seq<U>, items: seq<T>)
    requires forall i :: 0 <= i < |items| ==> f(items[i]) == g(items[i])
    ensures FlatBy(f, items) == FlatBy(g, items)
  {
    if items != [] {
      FlatSame(f, g, items[..|items| - 1]);
    }
  }

  lemma TryMapOneMore<T, U>(f: T -> Option<U>, items: seq<T>, i: nat)
    requires i < |items| && f(items[i]).Some? && TryMap(f, items[..i]).Some?
    ensures TryMap(f, items[..i + 1]) == Some(TryMap(f, items[..i]).value + [f(items[i]).value])
  {
    assert items[..i + 1][..i] == items[..i];
  }

  // ---------- Permutations ----------

  lemma RemoveLast<T>(a: seq<T>, b: seq<T>) returns (i: nat)
    requires a != [] && multiset(a) == multiset(b)
    ensures i < |b| && b[i] == a[|a| - 1]
    ensures multiset(a[..|a| - 1]) == multiset(b[..i] + b[i + 1..])
  {
    var last := a[|a| - 1];
    assert a == a[..|a| - 1] + [last];
    assert last in multiset(b);
    i :| 0 <= i < |b| && b[i] == last;
    var rest := b[..i] + b[i + 1..];
    assert b == b[..i] + [last] + b[i + 1..];
    assert multiset(b) == multiset(rest) + multiset{last};
    assert multiset(a) == multiset(a[..|a| - 1]) + multiset{last};
    assert multiset(a[..|a| - 1]) == multiset(a) - multiset{last} && multiset(rest) == multiset(b) - multiset{last};
  }

  lemma {:induction false} SumSplit<T>(f: T -> int, a: seq<T>, x: T, c: seq<T>)
    ensures SumBy(f, a + [x] + c) == SumBy(f, a + c) + f(x)
  {
    if c == [] {
      assert a + [x] + c == a + [x] && a + c == a;
    } else {
      var n := |c| - 1;
      SumSplit(f, a, x, c[..n]);
      assert (a + [x] + c)[..|a + [x] + c| - 1] == a + [x] + c[..n];
      assert (a + c)[..|a + c| - 1] == a + c[..n];
    }
  }

  lemma {:induction false} SumPermuted<T>(f: T -> int, a: seq<T>, b: seq<T>)
    requires multiset(a) == multiset(b)
    ensures SumBy(f, a) == SumBy(f, b)
  {
    if a == [] {
      assert |multiset(a)| == |multiset(b)|;
    } else {
      var i := RemoveLast(a, b);
      SumPermuted(f, a[..|a| - 1], b[..i] + b[i + 1..]);
      SumSplit(f, b[..i], b[i], b[i + 1..]);
      assert b == b[..i] + [b[i]] + b[i + 1..];
    }
  }

  lemma {:induction false} BagSplit<T, U>(f: T -> multiset<U>, a: seq<T>, x: T, c: seq<T>)
    ensures BagBy(f, a + [x] + c) == BagBy(f, a + c) + f(x)
  {
    if c == [] {
      assert a + [x] + c == a + [x] && a + c == a;
    } else {
      var n := |c| - 1;
      BagSplit(f, a, x, c[..n]);
      assert (a + [x] + c)[..|a + [x] + c| - 1] == a + [x] + c[..n];
      assert (a + c)[..|a + c| - 1] == a + c[..n];
    }
  }

  lemma {:induction false} BagPermuted<T, U>(f: T -> multiset<U>, a: seq<T>, b: seq<T>)
    requires multiset(a) == multiset(b)
    ensures BagBy(f, a) == BagBy(f, b)
  {
    if a == [] {
      assert |multiset(a)| == |multiset(b)|;
    } else {
      var i := RemoveLast(a, b);
      BagPermuted(f, a[..|a| - 1], b[..i] + b[i + 1..]);
      BagSplit(f, b[..i], b[i], b[i + 1..]);
      assert b == b[..i] + [b[i]] + b[i + 1..];
    }
  }

  lemma {:induction false} MapPermuted<T, U>(f: T -> U, a: seq<T>, b: seq<T>)
    requires multiset(a) == multiset(b)
    ensures multiset(MapBy(f, a)) == multiset(MapBy(f, b))
  {
    if a == [] {
      assert |multiset(a)| == |multiset(b)|;
    } else {
      var i := RemoveLast(a, b);
      MapPermuted(f, a[..|a| - 1], b[..i] + b[i + 1..]);
      MapSplit(f, b[..i], b[i], b[i + 1..]);
      assert b == b[..i] + [b[i]] + b[i + 1..];
    }
  }

  lemma {:induction false} MapSplit<T, U>(f: T -> U, a: seq<T>, x: T, c: seq<T>)
    ensures multiset(MapBy(f, a + [x] + c)) == multiset(MapBy(f, a + c)) + multiset{f(x)}
  {
    if c == [] {
      assert a + [x] + c == a + [x] && a + c == a;
    } else {
      var n := |c| - 1;
      MapSplit(f, a, x, c[..n]);
      assert (a + [x] + c)[..|a + [x] + c| - 1] == a + [x] + c[..n];
      assert (a + c)[..|a + c| - 1] == a + c[..n];
    }
  }

  // ---------- sorted(set(...)) of strings ----------

  /** Strictly increasing strings. */
  predicate Increasing(names: seq<string>) {
    forall i, j :: 0 <= i < j < |names| ==> Ids.Before(names[i], names[j])
  }

  function InsertName(name: string, names: seq<string>): (r: seq<string>)
    ensures forall x :: x in r <==> x == name || x in names
  {
    if names == [] then [name]
    else if name == names[0] then names
    else if Ids.Before(name, names[0]) then [name] + names
    else [names[0]] + InsertName(name, names[1..])
  }

  function SortedUnique(names: seq<string>): (r: seq<string>)
    ensures forall x :: x in r <==> x in names
  {
    if names == [] then []
    else
      var rest := SortedUnique(names[1..]);
      assert names == [names[0]] + names[1..];
      InsertName(names[0], rest)
  }

  lemma {:induction false} BeforeTotal(a: string, b: string)
    ensures Ids.Before(a, b) || a == b || Ids.Before(b, a)
  {
    if a != "" && b != "" {
      BeforeTotal(a[1..], b[1..]);
      assert a == [a[0]] + a[1..] && b == [b[0]] + b[1..];
    }
  }

  lemma {:induction false} InsertIncreasing(name: string, names: seq<string>)
    requires Increasing(names)
    ensures Increasing(InsertName(name, names))
  {
    if names != [] && name != names[0] {
      BeforeTotal(name, names[0]);
      if Ids.Before(name, names[0]) {
        forall j | 0 < j < |names| ensures Ids.Before(name, names[j]) {
          Ids.BeforeTransitive(name, names[0], names[j]);
        }
      } else {
        InsertIncreasing(name, names[1..]);
        var rest := InsertName(name, names[1..]);
        forall j | 0 <= j < |rest| ensures Ids.Before(names[0], rest[j]) {
          assert rest[j] in rest;
        }
      }
    }
  }

  lemma {:induction false} SortedIncreasing(names: seq<string>)
    ensures Increasing(SortedUnique(names))
  {
    if names != [] {
      SortedIncreasing(names[1..]);
      InsertIncreasing(names[0], SortedUnique(names[1..]));
    }
  }

  /** Increasing lists with the same members are the same list. */
  lemma {:induction false} IncreasingUnique(a: seq<string>, b: seq<string>)
    requires Increasing(a) && Increasing(b) && forall x :: x in a <==> x in b
    ensures a == b
  {
    assert a != [] ==> a[0] in b;
    assert b != [] ==> b[0] in a;
    if a != [] {
      SameLeast(a, b);
      forall x ensures x in a[1..] <==> x in b[1..] {
        TailMember(a, x);
        TailMember(b, x);
      }
      IncreasingUnique(a[1..], b[1..]);
      assert a == [a[0]] + a[1..] && b == [b[0]] + b[1..];
    }
  }

  lemma TailMember(a: seq<string>, x: string)
    requires Increasing(a) && a != []
    ensures x in a[1..] <==> x in a && x != a[0]
  {
    Ids.BeforeIrreflexive(a[0]);
    assert a == [a[0]] + a[1..];
  }

  lemma SameLeast(a: seq<string>, b: seq<string>)
    requires Increasing(a) && Increasing(b) && a != [] && b != [] && forall x :: x in a <==> x in b
    ensures a[0] == b[0]
  {
    assert a[0] in b && b[0] in a;
    if a[0] != b[0] {
      Ids.BeforeTransitive(a[0], b[0], a[0]);
      Ids.BeforeIrreflexive(a[0]);
    }
  }
}
