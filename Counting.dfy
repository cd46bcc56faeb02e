/**
 * Python's `collections.Counter` as the analyzer uses it: counts of values, kept in order of
 * first insertion, and `most_common(n)`, which lists the `n` most frequent values with their
 * counts, most frequent first, ties in insertion order (it sorts stably by descending count).
 */
module Counting {
  import opened Sequences

  /** `Counter(xs)[x]`: how often `x` occurs in `xs`. */
  function Occurrences<T(==)>(xs: seq<T>, x: T): nat
  {
    if xs == [] then 0 else Occurrences(xs[..|xs| - 1], x) + (if xs[|xs| - 1] == x then 1 else 0)
  }

  /** A value occurs exactly when it is an element. */
  lemma {:induction false} OccursIffMember<T>(xs: seq<T>, x: T)
    ensures Occurrences(xs, x) > 0 <==> x in xs
  {
    if xs != [] {
      OccursIffMember(xs[..|xs| - 1], x);
      assert xs == xs[..|xs| - 1] + [xs[|xs| - 1]];
    }
  }

  /** Index of the first candidate whose count is largest. */
  function FirstMax<T>(cands: seq<T>, count: T -> nat): (i: nat)
    requires cands != []
    ensures i < |cands|
    ensures forall k :: 0 <= k < |cands| ==> count(cands[k]) <= count(cands[i])
    ensures forall k :: 0 <= k < i ==> count(cands[k]) < count(cands[i])
  {
    if |cands| == 1 then 0
    else
      var j := FirstMax(cands[1..], count);
      if count(cands[0]) >= count(cands[1..][j]) then 0 else j + 1
  }

  /** No candidate is more frequent than the first most frequent one. */
  lemma MaxDominates<T>(cands: seq<T>, count: T -> nat, x: T)
    requires cands != [] && x in cands
    ensures count(x) <= count(cands[FirstMax(cands, count)])
  {
    var k :| 0 <= k < |cands| && cands[k] == x;
  }

  function RemoveAt<T>(xs: seq<T>, i: nat): (r: seq<T>)
    requires i < |xs|
    ensures |r| == |xs| - 1
    ensures forall x :: x in r ==> x in xs
  {
    xs[..i] + xs[i + 1..]
  }

  /**
   * The first `n` candidates in order of descending count, ties broken by their position:
   * repeatedly the first candidate with the largest count is taken out.
   */
  function Pick<T>(cands: seq<T>, count: T -> nat, n: nat): (r: seq<T>)
    ensures |r| == if n < |cands| then n else |cands|
    decreases n
  {
    if n == 0 || cands == [] then []
    else
      var i := FirstMax(cands, count);
      [cands[i]] + Pick(RemoveAt(cands, i), count, n - 1)
  }

  function CountIn<T(==)>(xs: seq<T>): T -> nat
  {
    x => Occurrences(xs, x)
  }

  /** `Counter(xs).most_common(n)`: the distinct values in order of first occurrence, picked by count. */
  function MostCommon<T(==)>(xs: seq<T>, n: nat): seq<(T, nat)>
  {
    var top := Pick(Dedup(xs), CountIn(xs), n);
    seq(|top|, k requires 0 <= k < |top| => (top[k], Occurrences(xs, top[k])))
  }

  /** `dict(Counter(xs))`: every distinct value in order of first occurrence, with its count. */
  function CounterItems<T(==)>(xs: seq<T>): seq<(T, nat)>
  {
    var keys := Dedup(xs);
    seq(|keys|, k requires 0 <= k < |keys| => (keys[k], Occurrences(xs, keys[k])))
  }

  /** Each value of `xs` has exactly one entry, holding the number of times it occurs; nothing else has one. */
  lemma CounterItemsSpec<T>(xs: seq<T>)
    ensures forall k :: 0 <= k < |CounterItems(xs)| ==>
      CounterItems(xs)[k].0 in xs && CounterItems(xs)[k].1 == Occurrences(xs, CounterItems(xs)[k].0)
    ensures forall x :: x in xs ==> exists k :: 0 <= k < |CounterItems(xs)| && CounterItems(xs)[k].0 == x
    ensures forall a, b :: 0 <= a < b < |CounterItems(xs)| ==> CounterItems(xs)[a].0 != CounterItems(xs)[b].0
  {
    DedupSpec(xs);
    forall k | 0 <= k < |CounterItems(xs)|
      ensures CounterItems(xs)[k].0 in xs
    {
      DedupMember(xs, k);
    }
    forall x | x in xs
      ensures exists k :: 0 <= k < |CounterItems(xs)| && CounterItems(xs)[k].0 == x
    {
      var k :| 0 <= k < |Dedup(xs)| && Dedup(xs)[k] == x;
      assert CounterItems(xs)[k].0 == x;
    }
  }

  // ---------------------------------------------------------------------------------------------
  // What the picking keeps

  /** Everything picked is a candidate, and nothing is picked twice. */
  lemma {:induction false} PickMembers<T>(cands: seq<T>, count: T -> nat, n: nat)
    requires NoDuplicates(cands)
    ensures forall x :: x in Pick(cands, count, n) ==> x in cands
    ensures NoDuplicates(Pick(cands, count, n))
    decreases n
  {
    if n != 0 && cands != [] {
      var i := FirstMax(cands, count);
      var rest := RemoveAt(cands, i);
      assert NoDuplicates(rest) by {
        forall a, b | 0 <= a < b < |rest|
          ensures rest[a] != rest[b]
        {
          var a' := if a < i then a else a + 1;
          var b' := if b < i then b else b + 1;
          assert rest[a] == cands[a'] && rest[b] == cands[b'];
        }
      }
      assert cands[i] !in rest by {
        forall k | 0 <= k < |rest|
          ensures rest[k] != cands[i]
        {
          assert rest[k] == cands[if k < i then k else k + 1];
        }
      }
      PickMembers(rest, count, n - 1);
    }
  }

  /** Counts never increase along what is picked. */
  lemma {:induction false} PickDescending<T>(cands: seq<T>, count: T -> nat, n: nat)
    ensures forall a, b :: 0 <= a < b < |Pick(cands, count, n)| ==>
      count(Pick(cands, count, n)[a]) >= count(Pick(cands, count, n)[b])
    decreases n
  {
    if n != 0 && cands != [] {
      var i := FirstMax(cands, count);
      var rest := RemoveAt(cands, i);
      var r := Pick(cands, count, n);
      PickDescending(rest, count, n - 1);
      PickFrom(rest, count, n - 1);
      forall a, b | 0 <= a < b < |r|
        ensures count(r[a]) >= count(r[b])
      {
        if a == 0 {
          assert r[b] == Pick(rest, count, n - 1)[b - 1];
          assert r[b] in rest;
          MaxDominates(cands, count, r[b]);
        } else {
          assert r[a] == Pick(rest, count, n - 1)[a - 1] && r[b] == Pick(rest, count, n - 1)[b - 1];
        }
      }
    }
  }

  /** Everything picked is a candidate (with repetitions allowed among the candidates). */
  lemma {:induction false} PickFrom<T>(cands: seq<T>, count: T -> nat, n: nat)
    ensures forall x :: x in Pick(cands, count, n) ==> x in cands
    decreases n
  {
    if n != 0 && cands != [] {
      var i := FirstMax(cands, count);
      PickFrom(RemoveAt(cands, i), count, n - 1);
    }
  }

  /** A candidate left out is no more frequent than anything picked. */
  lemma PickTop<T>(cands: seq<T>, count: T -> nat, n: nat)
    ensures forall x, y :: x in cands && x !in Pick(cands, count, n) && y in Pick(cands, count, n) ==>
      count(x) <= count(y)
  {
    forall x, y | x in cands && x !in Pick(cands, count, n) && y in Pick(cands, count, n)
      ensures count(x) <= count(y)
    {
      PickTopPair(cands, count, n, x, y);
    }
  }

  lemma {:induction false} PickTopPair<T>(cands: seq<T>, count: T -> nat, n: nat, x: T, y: T)
    requires x in cands && x !in Pick(cands, count, n) && y in Pick(cands, count, n)
    ensures count(x) <= count(y)
    decreases n
  {
    var i := FirstMax(cands, count);
    var rest := RemoveAt(cands, i);
    assert Pick(cands, count, n) == [cands[i]] + Pick(rest, count, n - 1);
    if y != cands[i] {
      assert x != cands[i];
      RemoveAtKeeps(cands, i, x);
      PickTopPair(rest, count, n - 1, x, y);
    } else {
      MaxDominates(cands, count, x);
    }
  }

  /** Taking out one position keeps every value held elsewhere. */
  lemma RemoveAtKeeps<T>(xs: seq<T>, i: nat, x: T)
    requires i < |xs| && x in xs && x != xs[i]
    ensures x in RemoveAt(xs, i)
  {
    var k :| 0 <= k < |xs| && xs[k] == x;
    assert RemoveAt(xs, i)[if k < i then k else k - 1] == x;
  }

  /** Each entry of `most_common(n)` is a distinct value of `xs` with its exact count; at most `n` are listed. */
  lemma MostCommonEntries<T>(xs: seq<T>, n: nat)
    ensures |MostCommon(xs, n)| <= n
    ensures forall k :: 0 <= k < |MostCommon(xs, n)| ==>
      MostCommon(xs, n)[k].0 in xs && MostCommon(xs, n)[k].1 == Occurrences(xs, MostCommon(xs, n)[k].0)
    ensures forall a, b :: 0 <= a < b < |MostCommon(xs, n)| ==> MostCommon(xs, n)[a].0 != MostCommon(xs, n)[b].0
  {
    var top := Pick(Dedup(xs), CountIn(xs), n);
    DedupSpec(xs);
    PickMembers(Dedup(xs), CountIn(xs), n);
    assert forall k :: 0 <= k < |top| ==> top[k] in top;
  }

  /** The entries of `most_common(n)` come most frequent first. */
  lemma MostCommonOrder<T>(xs: seq<T>, n: nat)
    ensures forall a, b :: 0 <= a < b < |MostCommon(xs, n)| ==> MostCommon(xs, n)[a].1 >= MostCommon(xs, n)[b].1
  {
    PickDescending(Dedup(xs), CountIn(xs), n);
  }

  /** A value of `xs` that `most_common(n)` leaves out occurs no more often than any value it lists. */
  lemma MostCommonTop<T>(xs: seq<T>, n: nat, x: T)
    requires x in xs && forall j :: 0 <= j < |MostCommon(xs, n)| ==> MostCommon(xs, n)[j].0 != x
    ensures forall k :: 0 <= k < |MostCommon(xs, n)| ==> Occurrences(xs, x) <= MostCommon(xs, n)[k].1
  {
    var top := Pick(Dedup(xs), CountIn(xs), n);
    DedupSpec(xs);
    PickTop(Dedup(xs), CountIn(xs), n);
    assert x in Dedup(xs);
    assert x !in top by {
      forall j | 0 <= j < |top|
        ensures top[j] != x
      {
        assert MostCommon(xs, n)[j].0 == top[j];
      }
    }
    forall k | 0 <= k < |top|
      ensures CountIn(xs)(x) <= CountIn(xs)(top[k])
    {
      assert top[k] in top;
    }
  }

  /** Fewer than `n` entries are listed only when every distinct value of `xs` is. */
  lemma MostCommonComplete<T>(xs: seq<T>, n: nat, x: T)
    requires |MostCommon(xs, n)| < n && x in xs
    ensures exists j :: 0 <= j < |MostCommon(xs, n)| && MostCommon(xs, n)[j].0 == x
  {
    var top := Pick(Dedup(xs), CountIn(xs), n);
    DedupSpec(xs);
    PickAll(Dedup(xs), CountIn(xs), n);
    assert x in Dedup(xs);
    var j :| 0 <= j < |top| && top[j] == x;
    assert MostCommon(xs, n)[j].0 == x;
  }

  /** When fewer than `n` are picked, every candidate is. */
  lemma {:induction false} PickAll<T>(cands: seq<T>, count: T -> nat, n: nat)
    requires |cands| < n || n == |cands|
    ensures forall x :: x in cands ==> x in Pick(cands, count, n)
    decreases n
  {
    if n != 0 && cands != [] {
      var i := FirstMax(cands, count);
      var rest := RemoveAt(cands, i);
      PickAll(rest, count, n - 1);
      forall x | x in cands
        ensures x in Pick(cands, count, n)
      {
        var k :| 0 <= k < |cands| && cands[k] == x;
        if k != i {
          assert rest[if k < i then k else k - 1] == x;
        }
      }
    }
  }

  // ---------------------------------------------------------------------------------------------
  // Ties: equal counts keep the order of first occurrence

  /** `u` stands before `v` in `s`. */
  predicate Before<T(==)>(s: seq<T>, u: T, v: T)
  {
    exists i, j :: 0 <= i < j < |s| && s[i] == u && s[j] == v
  }

  /** `u` occurs in `xs` before `v` first does. */
  predicate OccursFirst<T(==)>(xs: seq<T>, u: T, v: T)
  {
    exists i :: 0 <= i < |xs| && xs[i] == u && v !in xs[..i]
  }

  /** Taking out one position keeps the order of the others. */
  lemma RemoveAtBefore<T>(xs: seq<T>, i: nat, u: T, v: T)
    requires i < |xs| && Before(RemoveAt(xs, i), u, v)
    ensures Before(xs, u, v)
  {
    var r := RemoveAt(xs, i);
    var a, b :| 0 <= a < b < |r| && r[a] == u && r[b] == v;
    var a' := if a < i then a else a + 1;
    var b' := if b < i then b else b + 1;
    assert xs[a'] == u && xs[b'] == v;
  }

  /** A candidate as frequent as the first most frequent one stands after it. */
  lemma TieAfterMax<T>(cands: seq<T>, count: T -> nat, x: T)
    requires cands != [] && x in cands && x != cands[FirstMax(cands, count)]
    requires count(x) == count(cands[FirstMax(cands, count)])
    ensures Before(cands, cands[FirstMax(cands, count)], x)
  {
    var i := FirstMax(cands, count);
    var k :| 0 <= k < |cands| && cands[k] == x;
    assert k > i;
  }

  /** Picked candidates with equal counts keep their order among the candidates. */
  lemma {:induction false} PickTieOrder<T>(cands: seq<T>, count: T -> nat, n: nat, a: nat, b: nat)
    requires a < b < |Pick(cands, count, n)|
    requires count(Pick(cands, count, n)[a]) == count(Pick(cands, count, n)[b])
    requires NoDuplicates(cands)
    ensures Before(cands, Pick(cands, count, n)[a], Pick(cands, count, n)[b])
    decreases n
  {
    var i := FirstMax(cands, count);
    var rest := RemoveAt(cands, i);
    var r := Pick(cands, count, n);
    assert r == [cands[i]] + Pick(rest, count, n - 1);
    if a == 0 {
      PickTieHead(cands, count, n, b);
    } else {
      RemoveAtDistinct(cands, i);
      assert r[a] == Pick(rest, count, n - 1)[a - 1] && r[b] == Pick(rest, count, n - 1)[b - 1];
      PickTieOrder(rest, count, n - 1, a - 1, b - 1);
      RemoveAtBefore(cands, i, r[a], r[b]);
    }
  }

  /** A later pick as frequent as the first one stands after it among the candidates. */
  lemma PickTieHead<T>(cands: seq<T>, count: T -> nat, n: nat, b: nat)
    requires 0 < b < |Pick(cands, count, n)|
    requires count(Pick(cands, count, n)[0]) == count(Pick(cands, count, n)[b])
    requires NoDuplicates(cands)
    ensures Before(cands, Pick(cands, count, n)[0], Pick(cands, count, n)[b])
  {
    var i := FirstMax(cands, count);
    var rest := RemoveAt(cands, i);
    var r := Pick(cands, count, n);
    assert r == [cands[i]] + Pick(rest, count, n - 1);
    PickMembers(cands, count, n);
    assert r[0] != r[b];
    assert r[b] in Pick(rest, count, n - 1);
    PickFrom(rest, count, n - 1);
    TieAfterMax(cands, count, r[b]);
  }

  /** Taking out one position of a list without repetitions leaves one without repetitions. */
  lemma RemoveAtDistinct<T>(xs: seq<T>, i: nat)
    requires i < |xs| && NoDuplicates(xs)
    ensures NoDuplicates(RemoveAt(xs, i))
  {
    var rest := RemoveAt(xs, i);
    forall a, b | 0 <= a < b < |rest|
      ensures rest[a] != rest[b]
    {
      var a' := if a < i then a else a + 1;
      var b' := if b < i then b else b + 1;
      assert rest[a] == xs[a'] && rest[b] == xs[b'];
    }
  }

  /** A candidate left out that is as frequent as a picked one stands after it. */
  lemma {:induction false} PickTieLeftOut<T>(cands: seq<T>, count: T -> nat, n: nat, x: T, y: T)
    requires x in cands && x !in Pick(cands, count, n) && y in Pick(cands, count, n)
    requires count(x) == count(y)
    ensures Before(cands, y, x)
    decreases n
  {
    var i := FirstMax(cands, count);
    var rest := RemoveAt(cands, i);
    assert Pick(cands, count, n) == [cands[i]] + Pick(rest, count, n - 1);
    assert x != cands[i];
    RemoveAtKeeps(cands, i, x);
    if y != cands[i] {
      PickTopPair(rest, count, n - 1, x, y);
      PickTieLeftOut(rest, count, n - 1, x, y);
      RemoveAtBefore(cands, i, y, x);
    } else {
      TieAfterMax(cands, count, x);
    }
  }

  /** The de-duplicated list orders values by their first occurrence. */
  lemma {:induction false} DedupBefore<T>(xs: seq<T>, u: T, v: T)
    requires Before(Dedup(xs), u, v)
    ensures OccursFirst(xs, u, v)
  {
    var init := xs[..|xs| - 1];
    var last := xs[|xs| - 1];
    var d := Dedup(init);
    var a, b :| 0 <= a < b < |Dedup(xs)| && Dedup(xs)[a] == u && Dedup(xs)[b] == v;
    DedupSpec(init);
    if b < |d| {
      assert d[a] == u && d[b] == v;
      DedupBefore(init, u, v);
      var i :| 0 <= i < |init| && init[i] == u && v !in init[..i];
      assert xs[..i] == init[..i];
    } else {
      assert last !in d && Dedup(xs) == d + [last];
      assert v == last && v !in init;
      assert u == d[a] && u in d;
      var i :| 0 <= i < |init| && init[i] == u;
      assert xs[..i] == init[..i];
      assert v !in xs[..i];
    }
  }

  /** Entries of `most_common(n)` with equal counts are listed in order of first occurrence. */
  lemma MostCommonTieOrder<T>(xs: seq<T>, n: nat)
    ensures forall a, b :: 0 <= a < b < |MostCommon(xs, n)| && MostCommon(xs, n)[a].1 == MostCommon(xs, n)[b].1 ==>
      OccursFirst(xs, MostCommon(xs, n)[a].0, MostCommon(xs, n)[b].0)
  {
    var top := Pick(Dedup(xs), CountIn(xs), n);
    DedupSpec(xs);
    forall a, b | 0 <= a < b < |MostCommon(xs, n)| && MostCommon(xs, n)[a].1 == MostCommon(xs, n)[b].1
      ensures OccursFirst(xs, MostCommon(xs, n)[a].0, MostCommon(xs, n)[b].0)
    {
      assert MostCommon(xs, n)[a].0 == top[a] && MostCommon(xs, n)[b].0 == top[b];
      PickTieOrder(Dedup(xs), CountIn(xs), n, a, b);
      DedupBefore(xs, top[a], top[b]);
    }
  }

  /** A value that `most_common(n)` leaves out, though as frequent as a listed one, first occurs after it. */
  lemma MostCommonTieLeftOut<T>(xs: seq<T>, n: nat, x: T, k: nat)
    requires x in xs && forall j :: 0 <= j < |MostCommon(xs, n)| ==> MostCommon(xs, n)[j].0 != x
    requires k < |MostCommon(xs, n)| && Occurrences(xs, x) == MostCommon(xs, n)[k].1
    ensures OccursFirst(xs, MostCommon(xs, n)[k].0, x)
  {
    var top := Pick(Dedup(xs), CountIn(xs), n);
    DedupSpec(xs);
    assert MostCommon(xs, n)[k].0 == top[k];
    assert x !in top by {
      forall j | 0 <= j < |top|
        ensures top[j] != x
      {
        assert MostCommon(xs, n)[j].0 == top[j];
      }
    }
    assert top[k] in top;
    PickTieLeftOut(Dedup(xs), CountIn(xs), n, x, top[k]);
    DedupBefore(xs, top[k], x);
  }
}
