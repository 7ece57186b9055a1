/** The (CreatedAt, ID) order in which both stores list sagas. */
module SagaOrder {
  import opened Domain

  predicate LexLess(a: string, b: string) {
    |b| > 0 && (|a| == 0 || a[0] < b[0] || (a[0] == b[0] && LexLess(a[1..], b[1..])))
  }

  predicate Before(a: Saga, b: Saga) {
    a.createdAt < b.createdAt || (a.createdAt == b.createdAt && LexLess(a.id, b.id))
  }

  predicate Sorted(xs: seq<Saga>) {
    forall i, j :: 0 <= i < j < |xs| ==> Before(xs[i], xs[j])
  }

  /** Dictionary order: a proper prefix comes first, else the first differing character decides. */
  ghost predicate DictionaryBefore(a: string, b: string) {
    exists n :: 0 <= n <= |a| && n < |b| && a[..n] == b[..n] && (n < |a| ==> a[n] < b[n])
  }

  /** The recursive comparison decides dictionary order. */
  lemma {:induction false} LexIsDictionary(a: string, b: string)
    ensures LexLess(a, b) <==> DictionaryBefore(a, b)
  {
    forall n | 0 < n <= |a| && n <= |b| && a[..n] == b[..n]
      ensures a[0] == b[0]
    {
      assert a[..n][0] == b[..n][0];
    }
    assert a[..0] == b[..0];
    if |a| > 0 && |b| > 0 && a[0] == b[0] {
      LexIsDictionary(a[1..], b[1..]);
      TailsCompare(a, b);
    }
  }

  lemma TailsCompare(a: string, b: string)
    requires |a| > 0 && |b| > 0 && a[0] == b[0]
    ensures DictionaryBefore(a, b) <==> DictionaryBefore(a[1..], b[1..])
  {
    var x, y := a[1..], b[1..];
    assert a == [a[0]] + x && b == [b[0]] + y;
    if DictionaryBefore(a, b) {
      var n :| 0 <= n <= |a| && n < |b| && a[..n] == b[..n] && (n < |a| ==> a[n] < b[n]);
      assert n > 0;
      assert x[..n - 1] == a[..n][1..] && y[..n - 1] == b[..n][1..];
    }
    if DictionaryBefore(x, y) {
      var n :| 0 <= n <= |x| && n < |y| && x[..n] == y[..n] && (n < |x| ==> x[n] < y[n]);
      assert a[..n + 1] == [a[0]] + x[..n] && b[..n + 1] == [b[0]] + y[..n];
    }
  }

  /** Older sagas come first, sagas of the same age in the dictionary order of their ids. */
  lemma BeforeIsOlder(a: Saga, b: Saga)
    ensures Before(a, b) <==>
      a.createdAt < b.createdAt || (a.createdAt == b.createdAt && DictionaryBefore(a.id, b.id))
  {
    LexIsDictionary(a.id, b.id);
  }

  lemma {:induction false} LexTotal(a: string, b: string)
    ensures LexLess(a, b) || LexLess(b, a) || a == b
    ensures !(LexLess(a, b) && LexLess(b, a))
    ensures !LexLess(a, a)
  {
    if |a| > 0 && |b| > 0 && a[0] == b[0] {
      LexTotal(a[1..], b[1..]);
      assert a == [a[0]] + a[1..] && b == [b[0]] + b[1..];
    }
    if |a| > 0 { LexTotal(a[1..], a[1..]); }
  }

  lemma {:induction false} LexTransitive(a: string, b: string, c: string)
    requires LexLess(a, b) && LexLess(b, c)
    ensures LexLess(a, c)
  {
    if |a| > 0 && a[0] == b[0] && b[0] == c[0] { LexTransitive(a[1..], b[1..], c[1..]); }
  }

  lemma BeforeTotal(a: Saga, b: Saga)
    ensures Before(a, b) || Before(b, a) || a.id == b.id
    ensures !(Before(a, b) && Before(b, a)) && !Before(a, a)
  {
    LexTotal(a.id, b.id);
  }

  lemma BeforeTransitive(a: Saga, b: Saga, c: Saga)
    requires Before(a, b) && Before(b, c)
    ensures Before(a, c)
  {
    if a.createdAt == b.createdAt == c.createdAt { LexTransitive(a.id, b.id, c.id); }
  }

  /** Sorting leaves no choice: a strictly sorted sequence is fixed by its elements. */
  lemma {:induction false} SortedIsUnique(xs: seq<Saga>, ys: seq<Saga>)
    requires Sorted(xs) && Sorted(ys) && forall x :: x in xs <==> x in ys
    ensures xs == ys
  {
    assert xs != [] ==> xs[0] in ys;
    assert ys != [] ==> ys[0] in xs;
    if xs != [] {
      BeforeTotal(xs[0], ys[0]);
      assert xs[0] == ys[0];
      forall x
        ensures x in xs[1..] <==> x in ys[1..]
      {
        BeforeTotal(xs[0], xs[0]);
        if x in xs[1..] { assert Before(xs[0], x) && x in ys; }
        if x in ys[1..] { assert Before(ys[0], x) && x in xs; }
      }
      SortedIsUnique(xs[1..], ys[1..]);
    }
  }

  /** Insertion into a sorted sequence. */
  function Insert(x: Saga, ys: seq<Saga>): seq<Saga> {
    if ys == [] || Before(x, ys[0]) then [x] + ys else [ys[0]] + Insert(x, ys[1..])
  }

  lemma {:induction false} InsertSorts(x: Saga, ys: seq<Saga>)
    requires Sorted(ys) && forall y :: y in ys ==> y.id != x.id
    ensures Sorted(Insert(x, ys))
    ensures forall z :: z in Insert(x, ys) <==> z == x || z in ys
    ensures |Insert(x, ys)| == |ys| + 1
  {
    if ys == [] {
    } else if Before(x, ys[0]) {
      forall i | 0 <= i < |ys|
        ensures Before(x, ys[i])
      {
        if i > 0 { BeforeTransitive(x, ys[0], ys[i]); }
      }
    } else {
      InsertSorts(x, ys[1..]);
      BeforeTotal(x, ys[0]);
      var zs := Insert(x, ys[1..]);
      assert ys[0] in ys;
      forall i | 0 <= i < |zs|
        ensures Before(ys[0], zs[i])
      {
        assert zs[i] in zs;
      }
    }
  }

  /** The outcome of sort.Slice on sagas with distinct ids. */
  method SortSagas(xs: seq<Saga>) returns (ys: seq<Saga>)
    requires forall i, j :: 0 <= i < j < |xs| ==> xs[i].id != xs[j].id
    ensures Sorted(ys) && |ys| == |xs| && forall z :: z in ys <==> z in xs
    ensures forall i, j :: 0 <= i < j < |ys| ==>
      || ys[i].createdAt < ys[j].createdAt
      || (ys[i].createdAt == ys[j].createdAt && DictionaryBefore(ys[i].id, ys[j].id))
  {
    ys := [];
    for i := 0 to |xs|
      invariant Sorted(ys) && |ys| == i
      invariant forall z :: z in ys <==> z in xs[..i]
    {
      InsertSorts(xs[i], ys);
      ys := Insert(xs[i], ys);
      assert xs[..i + 1] == xs[..i] + [xs[i]];
    }
    assert xs[..|xs|] == xs;
    forall i, j | 0 <= i < j < |ys|
      ensures || ys[i].createdAt < ys[j].createdAt
              || (ys[i].createdAt == ys[j].createdAt && DictionaryBefore(ys[i].id, ys[j].id))
    {
      BeforeIsOlder(ys[i], ys[j]);
    }
  }
}
