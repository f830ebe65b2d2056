// The persisted step records of a run (runs.steps): the trace and the resume state.
module RunSteps {
  import opened Prelude

  datatype ToolCall = ToolCall(id: string, name: string, args: string)

  /** Normalised token usage of one turn; input excludes cached tokens. */
  datatype Usage = Usage(input: nat, output: nat, cacheRead: nat, cacheWrite: nat)

  /** One record of runs.steps. Costs are in units of 1e-8 USD; "" stands for an absent artifact id. */
  datatype Step =
    | Llm(i: nat, text: string, toolCalls: seq<ToolCall>, usage: Usage, cost: nat)
    | Tool(i: nat, callId: string, tool: string, args: string, content: string, summary: string,
           durationMs: nat, artifactId: string, artifactType: Option<string>,
           artifactTitle: Option<string>, sources: seq<string>)

  // ---- Sorting a log by step index -------------------------------------------------------

  predicate Sorted(xs: seq<Step>) {
    forall a, b | 0 <= a < b < |xs| :: xs[a].i <= xs[b].i
  }

  predicate StrictlySorted(xs: seq<Step>) {
    forall a, b | 0 <= a < b < |xs| :: xs[a].i < xs[b].i
  }

  predicate DistinctIndices(xs: seq<Step>) {
    forall a, b | 0 <= a < b < |xs| :: xs[a].i != xs[b].i
  }

  /** Insert after every element whose index is not larger, which keeps the sort stable. */
  function Insert(xs: seq<Step>, x: Step): (r: seq<Step>) {
    if xs == [] || Last(xs).i <= x.i then xs + [x] else Insert(Front(xs), x) + [Last(xs)]
  }

  /** The library sort `sort((a, b) => a.i - b.i)`: stable, ascending by index. */
  function SortByIndex(xs: seq<Step>): (r: seq<Step>) {
    if xs == [] then [] else Insert(SortByIndex(Front(xs)), Last(xs))
  }

  lemma {:induction false} InsertMultiset(xs: seq<Step>, x: Step)
    ensures multiset(Insert(xs, x)) == multiset(xs) + multiset{x}
  {
    if xs == [] || Last(xs).i <= x.i {
    } else {
      FrontMultiset(xs);
      InsertMultiset(Front(xs), x);
    }
  }

  lemma {:induction false} InsertSorted(xs: seq<Step>, x: Step)
    requires Sorted(xs)
    ensures Sorted(Insert(xs, x))
    ensures forall e | e in Insert(xs, x) :: e in xs || e == x
  {
    if xs == [] || Last(xs).i <= x.i {
    } else {
      InsertSorted(Front(xs), x);
      var r := Insert(Front(xs), x);
      forall a | 0 <= a < |r| ensures r[a].i <= Last(xs).i {
        assert r[a] in r;
      }
    }
  }

  lemma {:induction false} SortProperties(xs: seq<Step>)
    ensures Sorted(SortByIndex(xs))
    ensures multiset(SortByIndex(xs)) == multiset(xs)
  {
    if xs == [] {
    } else {
      FrontMultiset(xs);
      SortProperties(Front(xs));
      InsertMultiset(SortByIndex(Front(xs)), Last(xs));
      InsertSorted(SortByIndex(Front(xs)), Last(xs));
    }
  }

  lemma LastsAgree(xs: seq<Step>, ys: seq<Step>)
    requires StrictlySorted(xs) && Sorted(ys) && xs != [] && ys != []
    requires multiset(xs) == multiset(ys)
    ensures Last(xs) == Last(ys) && multiset(Front(xs)) == multiset(Front(ys))
  {
    var x, y := Last(xs), Last(ys);
    FrontMultiset(xs);
    FrontMultiset(ys);
    assert x in multiset(ys) && y in multiset(xs);
    LastIsGreatest(xs, y);
    assert x in ys;
    RemoveOne(multiset(Front(xs)), multiset(Front(ys)), x);
  }

  lemma LastIsGreatest(xs: seq<Step>, y: Step)
    requires StrictlySorted(xs) && y in xs
    ensures y == Last(xs) || y.i < Last(xs).i
  {
  }

  lemma RemoveOne(a: multiset<Step>, b: multiset<Step>, x: Step)
    requires a + multiset{x} == b + multiset{x}
    ensures a == b
  {
    assert a == (a + multiset{x}) - multiset{x};
    assert b == (b + multiset{x}) - multiset{x};
  }

  /** The steps of one index, in order. */
  function WithIndex(xs: seq<Step>, i: nat): (r: seq<Step>) {
    if xs == [] then [] else WithIndex(Front(xs), i) + (if Last(xs).i == i then [Last(xs)] else [])
  }

  lemma WithIndexSnoc(xs: seq<Step>, x: Step, i: nat)
    ensures WithIndex(xs + [x], i) == WithIndex(xs, i) + (if x.i == i then [x] else [])
  {
    assert Front(xs + [x]) == xs;
  }

  lemma {:induction false} InsertIsStable(xs: seq<Step>, x: Step, i: nat)
    ensures WithIndex(Insert(xs, x), i) == WithIndex(xs, i) + (if x.i == i then [x] else [])
  {
    if xs == [] || Last(xs).i <= x.i {
      WithIndexSnoc(xs, x, i);
    } else {
      InsertIsStable(Front(xs), x, i);
      WithIndexSnoc(Insert(Front(xs), x), Last(xs), i);
      ConcatNothing(WithIndex(Front(xs), i));
    }
  }

  /** Steps of one index keep the order in which they were appended. */
  lemma {:induction false} SortIsStable(xs: seq<Step>, i: nat)
    ensures WithIndex(SortByIndex(xs), i) == WithIndex(xs, i)
  {
    if xs == [] {
    } else {
      SortIsStable(Front(xs), i);
      InsertIsStable(SortByIndex(Front(xs)), Last(xs), i);
    }
  }

  /** Distinct indices leave the sort no freedom: one sorted arrangement per multiset. */
  lemma {:induction false} SortedUnique(xs: seq<Step>, ys: seq<Step>)
    requires StrictlySorted(xs) && Sorted(ys)
    requires multiset(xs) == multiset(ys)
    ensures xs == ys
  {
    assert |xs| == |multiset(xs)| == |multiset(ys)| == |ys|;
    if xs == [] {
    } else {
      LastsAgree(xs, ys);
      SortedUnique(Front(xs), Front(ys));
      FrontAndLast(xs);
      FrontAndLast(ys);
    }
  }

  /** The sort puts any arrangement of a strictly sorted sequence back. */
  lemma SortRestores(log: seq<Step>, canonical: seq<Step>)
    requires StrictlySorted(canonical)
    requires multiset(log) == multiset(canonical)
    ensures SortByIndex(log) == canonical
  {
    SortProperties(log);
    SortedUnique(canonical, SortByIndex(log));
  }

  /** On a log with distinct indices the sorted log does not depend on the append order. */
  lemma SortIsCanonical(log: seq<Step>, other: seq<Step>)
    requires DistinctIndices(log)
    requires multiset(log) == multiset(other)
    ensures SortByIndex(log) == SortByIndex(other)
    ensures StrictlySorted(SortByIndex(log))
  {
    SortProperties(log);
    SortProperties(other);
    var s := SortByIndex(log);
    forall a, b | 0 <= a < b < |s| ensures s[a].i != s[b].i {
      DistinctUnderPermutation(log, s, a, b);
    }
    SortedUnique(s, SortByIndex(other));
  }

  lemma DistinctUnderPermutation(xs: seq<Step>, ys: seq<Step>, a: nat, b: nat)
    requires DistinctIndices(xs)
    requires multiset(xs) == multiset(ys)
    requires a < b < |ys|
    ensures ys[a].i != ys[b].i
  {
    if ys[a].i == ys[b].i {
      assert ys[a] in multiset(xs) && ys[b] in multiset(xs);
      assert ys[a] == ys[b];
      var x := ys[a];
      assert ys == ys[..a] + [x] + ys[a + 1..b] + [x] + ys[b + 1..];
      assert multiset(ys)[x] >= 2;
      AtMostOnce(xs, x);
    }
  }

  lemma {:induction false} AtMostOnce(xs: seq<Step>, x: Step)
    requires DistinctIndices(xs)
    ensures multiset(xs)[x] <= 1
  {
    if xs == [] {
    } else {
      FrontMultiset(xs);
      AtMostOnce(Front(xs), x);
      if Last(xs) == x {
        assert x !in Front(xs);
        assert multiset(Front(xs))[x] == 0;
      }
    }
  }
}
