/**
 * The three loop shapes every extractor is built from, each as a specification function, the
 * loop that computes it, and the facts the extractors rely on:
 *  - a cascade: try candidates in priority order and keep the first that yields a value;
 *  - a filtered collection: keep, in order, the values that the candidates yield;
 *  - an order-preserving de-duplication.
 */
module Sequences {
  import opened Values

  /** The first value `probe` yields along `xs`; later candidates are not consulted. */
  function FirstSome<A, T>(xs: seq<A>, probe: A -> Option<T>): Option<T>
  {
    if xs == [] then None
    else if probe(xs[0]).Some? then probe(xs[0])
    else FirstSome(xs[1..], probe)
  }

  /** The cascade loop: `for x in xs: v = probe(x); if v: r = v; break`. */
  method FindFirst<A, T>(xs: seq<A>, probe: A -> Option<T>) returns (r: Option<T>)
    ensures r == FirstSome(xs, probe)
  {
    r := None;
    var i := 0;
    while i < |xs|
      invariant 0 <= i <= |xs|
      invariant r == None
      invariant FirstSome(xs, probe) == FirstSome(xs[i..], probe)
    {
      var v := probe(xs[i]);
      if v.Some? {
        r := v;
        break;
      }
      i := i + 1;
    }
  }

  /** The cascade yields the value of candidate `i` exactly when `i` hits and no earlier one does. */
  lemma {:induction false} FirstSomeAt<A, T>(xs: seq<A>, probe: A -> Option<T>, i: nat)
    requires i < |xs| && probe(xs[i]).Some?
    requires forall j :: 0 <= j < i ==> probe(xs[j]).None?
    ensures FirstSome(xs, probe) == probe(xs[i])
  {
    if i > 0 {
      FirstSomeAt(xs[1..], probe, i - 1);
    }
  }

  /** The cascade comes up empty exactly when every candidate misses. */
  lemma {:induction false} FirstSomeNone<A, T>(xs: seq<A>, probe: A -> Option<T>)
    ensures FirstSome(xs, probe).None? <==> forall j :: 0 <= j < |xs| ==> probe(xs[j]).None?
  {
    if xs != [] {
      FirstSomeNone(xs[1..], probe);
      assert forall j :: 1 <= j < |xs| ==> xs[j] == xs[1..][j - 1];
    }
  }

  /** Whatever the cascade yields comes from its earliest hitting candidate. */
  lemma {:induction false} FirstSomeWitness<A, T>(xs: seq<A>, probe: A -> Option<T>) returns (i: nat)
    requires FirstSome(xs, probe).Some?
    ensures i < |xs| && FirstSome(xs, probe) == probe(xs[i])
    ensures forall j :: 0 <= j < i ==> probe(xs[j]).None?
  {
    if probe(xs[0]).Some? {
      i := 0;
    } else {
      var k := FirstSomeWitness(xs[1..], probe);
      i := k + 1;
    }
  }

  /** Short-circuit: once a candidate hits, candidates after it cannot change the outcome. */
  lemma {:induction false} FirstSomeIgnoresLater<A, T>(xs: seq<A>, ys: seq<A>, probe: A -> Option<T>)
    requires FirstSome(xs, probe).Some?
    ensures FirstSome(xs + ys, probe) == FirstSome(xs, probe)
  {
    if probe(xs[0]).None? {
      assert (xs + ys)[1..] == xs[1..] + ys;
      FirstSomeIgnoresLater(xs[1..], ys, probe);
    }
  }

  /** An optional value as a list: `[v]` for a value, `[]` for none (`xs.append(v)` only when there is one). */
  function Listed<T>(o: Option<T>): (r: seq<T>)
    ensures |r| <= 1
    ensures r == [] <==> o.None?
    ensures o.Some? ==> r[0] == o.value
  {
    if o.Some? then [o.value] else []
  }

  /** The values `f` yields along `xs`, in order; candidates yielding nothing are dropped. */
  function Keep<A, T>(xs: seq<A>, f: A -> Option<T>): seq<T>
  {
    if xs == [] then []
    else
      var last := f(xs[|xs| - 1]);
      Keep(xs[..|xs| - 1], f) + (if last.Some? then [last.value] else [])
  }

  /** The collecting loop: `out = []; for x in xs: v = f(x); if v: out.append(v)`. */
  method Collect<A, T>(xs: seq<A>, f: A -> Option<T>) returns (out: seq<T>)
    ensures out == Keep(xs, f)
  {
    out := [];
    var i := 0;
    while i < |xs|
      invariant 0 <= i <= |xs|
      invariant out == Keep(xs[..i], f)
    {
      KeepStep(xs, i, f);
      var v := f(xs[i]);
      if v.Some? {
        out := out + [v.value];
      }
      i := i + 1;
    }
    assert xs[..|xs|] == xs;
  }

  /** One more candidate: its value, if any, is appended. */
  lemma KeepStep<A, T>(xs: seq<A>, i: nat, f: A -> Option<T>)
    requires i < |xs|
    ensures Keep(xs[..i + 1], f) == Keep(xs[..i], f) + (if f(xs[i]).Some? then [f(xs[i]).value] else [])
  {
    assert xs[..i + 1][..i] == xs[..i];
  }

  lemma {:induction false} KeepAppend<A, T>(xs: seq<A>, ys: seq<A>, f: A -> Option<T>)
    ensures Keep(xs + ys, f) == Keep(xs, f) + Keep(ys, f)
    decreases |ys|
  {
    if ys != [] {
      var zs := ys[..|ys| - 1];
      assert (xs + ys)[..|xs + ys| - 1] == xs + zs;
      KeepAppend(xs, zs, f);
    } else {
      assert xs + ys == xs;
    }
  }

  /** Collection never grows the list, and keeps every candidate when every candidate yields. */
  lemma {:induction false} KeepLength<A, T>(xs: seq<A>, f: A -> Option<T>)
    ensures |Keep(xs, f)| <= |xs|
    ensures (forall j :: 0 <= j < |xs| ==> f(xs[j]).Some?) ==> |Keep(xs, f)| == |xs|
  {
    if xs != [] {
      KeepLength(xs[..|xs| - 1], f);
    }
  }

  /** Every kept value comes from some candidate, and every yielded value is kept. */
  lemma {:induction false} KeepMembers<A, T>(xs: seq<A>, f: A -> Option<T>)
    ensures forall v :: v in Keep(xs, f) <==> exists j :: 0 <= j < |xs| && f(xs[j]) == Some(v)
  {
    if xs != [] {
      var init := xs[..|xs| - 1];
      KeepMembers(init, f);
      assert forall j :: 0 <= j < |init| ==> init[j] == xs[j];
    }
  }

  /** Nothing is kept exactly when no candidate yields. */
  lemma KeepEmpty<A, T>(xs: seq<A>, f: A -> Option<T>)
    ensures Keep(xs, f) == [] <==> forall j :: 0 <= j < |xs| ==> f(xs[j]).None?
  {
    KeepMembers(xs, f);
    if Keep(xs, f) != [] {
      assert Keep(xs, f)[0] in Keep(xs, f);
    }
  }

  /** `xs[:n]`. */
  function Take<T>(xs: seq<T>, n: nat): (r: seq<T>)
    ensures |r| == if |xs| < n then |xs| else n
    ensures r <= xs
  {
    if |xs| <= n then xs else xs[..n]
  }

  /** Collecting from the first `n` candidates keeps at most `n` values, each from one of them. */
  lemma KeepTake<A, T>(xs: seq<A>, n: nat, f: A -> Option<T>)
    ensures |Keep(Take(xs, n), f)| <= n
    ensures forall v :: v in Keep(Take(xs, n), f) <==> exists j :: 0 <= j < |xs| && j < n && f(xs[j]) == Some(v)
  {
    var first := Take(xs, n);
    KeepLength(first, f);
    KeepMembers(first, f);
    assert forall j :: 0 <= j < |first| ==> first[j] == xs[j];
  }

  /** The elements of `xs` in order of first occurrence, each once. */
  function Dedup<T(==)>(xs: seq<T>): seq<T>
  {
    if xs == [] then []
    else
      var d := Dedup(xs[..|xs| - 1]);
      if xs[|xs| - 1] in d then d else d + [xs[|xs| - 1]]
  }

  /** One more element: appended unless it was seen before. */
  lemma DedupSnoc<T>(xs: seq<T>, v: T)
    ensures Dedup(xs + [v]) == if v in Dedup(xs) then Dedup(xs) else Dedup(xs) + [v]
  {
    assert (xs + [v])[..|xs|] == xs;
  }

  predicate NoDuplicates<T(==)>(xs: seq<T>)
  {
    forall i, j :: 0 <= i < j < |xs| ==> xs[i] != xs[j]
  }

  /** De-duplication keeps exactly the values of the input, once each. */
  lemma {:induction false} DedupSpec<T>(xs: seq<T>)
    ensures NoDuplicates(Dedup(xs))
    ensures forall v :: v in Dedup(xs) <==> v in xs
  {
    if xs != [] {
      DedupSpec(xs[..|xs| - 1]);
      assert forall v :: v in xs <==> v in xs[..|xs| - 1] || v == xs[|xs| - 1];
    }
  }

  /** Each entry of the de-duplicated list is a value of the input. */
  lemma DedupMember<T>(xs: seq<T>, k: nat)
    requires k < |Dedup(xs)|
    ensures Dedup(xs)[k] in xs
  {
    DedupSpec(xs);
    assert Dedup(xs)[k] in Dedup(xs);
  }

  /** First-occurrence order: de-duplicating a longer list only appends to the shorter one's result. */
  lemma {:induction false} DedupExtends<T>(xs: seq<T>, ys: seq<T>)
    ensures Dedup(xs) <= Dedup(xs + ys)
    decreases |ys|
  {
    if ys == [] {
      assert xs + ys == xs;
    } else {
      var zs := ys[..|ys| - 1];
      assert (xs + ys)[..|xs + ys| - 1] == xs + zs;
      DedupExtends(xs, zs);
    }
  }

  /** The elements of `xs` that satisfy `p`, in order. */
  function Filter<T>(xs: seq<T>, p: T -> bool): (r: seq<T>)
    ensures |r| <= |xs|
  {
    if xs == [] then []
    else (if p(xs[0]) then [xs[0]] else []) + Filter(xs[1..], p)
  }

  lemma {:induction false} FilterMembers<T>(xs: seq<T>, p: T -> bool)
    ensures forall v :: v in Filter(xs, p) <==> v in xs && p(v)
  {
    if xs != [] {
      FilterMembers(xs[1..], p);
    }
  }

  /** The first element of `xs`, if any. */
  function First<T>(xs: seq<T>): (r: Option<T>)
    ensures r.Some? <==> xs != []
    ensures r.Some? ==> r.value == xs[0]
  {
    if xs == [] then None else Some(xs[0])
  }

  /** Concatenation of a list of strings (`''.join(ss)`). */
  function Concat(ss: seq<string>): string
  {
    if ss == [] then [] else ss[0] + Concat(ss[1..])
  }

  /** Scanning from the last element back, the first one `skip` rejects not. */
  function LastNot<T>(xs: seq<T>, skip: T -> bool): (r: Option<T>)
    ensures r.None? <==> forall k :: 0 <= k < |xs| ==> skip(xs[k])
    ensures r.Some? ==> exists k :: (0 <= k < |xs| && r.value == xs[k] && !skip(xs[k]) &&
      forall j :: k < j < |xs| ==> skip(xs[j]))
  {
    if xs == [] then None
    else if !skip(xs[|xs| - 1]) then Some(xs[|xs| - 1])
    else
      var front := xs[..|xs| - 1];
      var r := LastNot(front, skip);
      assert forall k :: 0 <= k < |front| ==> front[k] == xs[k];
      r
  }

  /** The first position in `from..last` where `probe` yields a value, with that value. */
  function FirstAt<T>(from: nat, last: nat, probe: nat -> Option<T>): Option<T>
    decreases last - from
  {
    if from > last then None
    else if probe(from).Some? then probe(from)
    else FirstAt(from + 1, last, probe)
  }

  lemma {:induction false} FirstAtLeftmost<T>(from: nat, last: nat, probe: nat -> Option<T>)
    ensures FirstAt(from, last, probe).None? <==> forall i: nat :: from <= i <= last ==> probe(i).None?
    ensures FirstAt(from, last, probe).Some? ==>
      exists i: nat :: from <= i <= last && probe(i) == FirstAt(from, last, probe) &&
        (forall j: nat :: from <= j < i ==> probe(j).None?)
    decreases last - from
  {
    if from <= last && probe(from).None? {
      FirstAtLeftmost(from + 1, last, probe);
      if FirstAt(from + 1, last, probe).Some? {
        var i: nat :| from + 1 <= i <= last && probe(i) == FirstAt(from + 1, last, probe) &&
          forall j: nat :: from + 1 <= j < i ==> probe(j).None?;
        assert forall j: nat :: from <= j < i ==> probe(j).None?;
      }
    }
  }

  /** `d = {}; for x in xs: d.update(f(x))`: a later mapping's keys replace an earlier one's. */
  function MergeAll<A>(xs: seq<A>, f: A -> Mapping): Mapping
  {
    if xs == [] then map[] else MergeAll(xs[..|xs| - 1], f) + f(xs[|xs| - 1])
  }

  lemma MergeStep<A>(xs: seq<A>, i: nat, f: A -> Mapping)
    requires i < |xs|
    ensures MergeAll(xs[..i + 1], f) == MergeAll(xs[..i], f) + f(xs[i])
  {
    assert xs[..i + 1][..i] == xs[..i];
  }

  /** The merging loop itself. */
  method MergeEach<A>(xs: seq<A>, f: A -> Mapping) returns (m: Mapping)
    ensures m == MergeAll(xs, f)
  {
    m := map[];
    var i := 0;
    while i < |xs|
      invariant 0 <= i <= |xs|
      invariant m == MergeAll(xs[..i], f)
    {
      MergeStep(xs, i, f);
      m := m + f(xs[i]);
      i := i + 1;
    }
    assert xs[..|xs|] == xs;
  }

  /** The last mapping that has a key decides its value. */
  lemma {:induction false} MergeLastWins<A>(xs: seq<A>, f: A -> Mapping, key: string, j: nat)
    requires j < |xs| && key in f(xs[j])
    requires forall k :: j < k < |xs| ==> key !in f(xs[k])
    ensures key in MergeAll(xs, f) && MergeAll(xs, f)[key] == f(xs[j])[key]
  {
    if j < |xs| - 1 {
      var front := xs[..|xs| - 1];
      assert forall k :: j < k < |front| ==> front[k] == xs[k];
      MergeLastWins(front, f, key, j);
    }
  }

  /** A property every merged mapping's entries have, the merge's entries have too. */
  lemma {:induction false} MergeEntries<A>(xs: seq<A>, f: A -> Mapping, p: (string, Value) -> bool)
    requires forall j, key :: 0 <= j < |xs| && key in f(xs[j]) ==> p(key, f(xs[j])[key])
    ensures forall key :: key in MergeAll(xs, f) ==> p(key, MergeAll(xs, f)[key])
  {
    if xs != [] {
      var front := xs[..|xs| - 1];
      assert forall j :: 0 <= j < |front| ==> front[j] == xs[j];
      MergeEntries(front, f, p);
    }
  }

  /** The merged keys are exactly the keys of the mappings merged. */
  lemma {:induction false} MergeKeys<A>(xs: seq<A>, f: A -> Mapping)
    ensures forall key :: key in MergeAll(xs, f) <==> exists k :: 0 <= k < |xs| && key in f(xs[k])
  {
    if xs != [] {
      var front := xs[..|xs| - 1];
      MergeKeys(front, f);
      assert forall k :: 0 <= k < |front| ==> front[k] == xs[k];
    }
  }
}
