/** Evidence as a multiset: sorted weights per category, and sums over categories. Shared by both scorers. */
module Weights {
  import opened Prelude

  datatype Evidence = Evidence(category: string, rule: string, weight: real)

  // ---------- Sorting ----------

  ghost predicate Descending(s: seq<real>) {
    forall i, j :: 0 <= i < j < |s| ==> s[i] >= s[j]
  }

  ghost predicate NonNegative(s: seq<real>) {
    forall i :: 0 <= i < |s| ==> s[i] >= 0.0
  }

  function Insert(x: real, s: seq<real>): (r: seq<real>)
    ensures |r| == |s| + 1 && multiset(r) == multiset(s) + multiset{x}
  {
    if s == [] || x >= s[0] then [x] + s
    else
      assert s == [s[0]] + s[1..];
      [s[0]] + Insert(x, s[1..])
  }

  /** `weights.sort((a, b) => b - a)`. */
  function Sort(s: seq<real>): (r: seq<real>)
    ensures |r| == |s| && multiset(r) == multiset(s)
  {
    if s == [] then []
    else
      assert s == s[..|s| - 1] + [s[|s| - 1]];
      Insert(s[|s| - 1], Sort(s[..|s| - 1]))
  }

  lemma {:induction false} InsertBound(x: real, s: seq<real>, most: real)
    requires x <= most && forall i :: 0 <= i < |s| ==> s[i] <= most
    ensures forall i :: 0 <= i <= |s| ==> Insert(x, s)[i] <= most
  {
    if s != [] && x < s[0] {
      InsertBound(x, s[1..], most);
    }
  }

  /** Inserting keeps the order and lowers no position. */
  lemma {:induction false} InsertRaises(x: real, s: seq<real>)
    requires Descending(s)
    ensures Descending(Insert(x, s))
    ensures forall i :: 0 <= i < |s| ==> Insert(x, s)[i] >= s[i]
  {
    if s != [] && x < s[0] {
      InsertRaises(x, s[1..]);
      InsertBound(x, s[1..], s[0]);
      Prefixed(s[0], Insert(x, s[1..]));
    }
  }

  lemma Prefixed(y: real, t: seq<real>)
    requires Descending(t) && forall i :: 0 <= i < |t| ==> t[i] <= y
    ensures Descending([y] + t)
  {
  }

  lemma {:induction false} SortDescends(s: seq<real>)
    ensures Descending(Sort(s))
  {
    if s != [] {
      SortDescends(s[..|s| - 1]);
      InsertRaises(s[|s| - 1], Sort(s[..|s| - 1]));
    }
  }

  lemma HeadIsMost(a: seq<real>, y: real)
    requires Descending(a) && y in multiset(a)
    ensures a != [] && y <= a[0]
  {
    var i :| 0 <= i < |a| && a[i] == y;
  }

  lemma TailMultiset<T>(a: seq<T>)
    requires a != []
    ensures multiset(a) == multiset{a[0]} + multiset(a[1..]) && a[0] in multiset(a)
  {
    assert a == [a[0]] + a[1..];
  }

  lemma Cancel<T>(x: T, m: multiset<T>, n: multiset<T>)
    requires multiset{x} + m == multiset{x} + n
    ensures m == n
  {
    forall y ensures m[y] == n[y] {
      assert (multiset{x} + m)[y] == (multiset{x} + n)[y];
    }
  }

  /** A descending order of a multiset is unique. */
  lemma {:induction false} DescendingIsUnique(a: seq<real>, b: seq<real>)
    requires Descending(a) && Descending(b) && multiset(a) == multiset(b)
    ensures a == b
    decreases |a|
  {
    if a == [] {
      assert |multiset(b)| == 0;
    } else {
      TailMultiset(a);
      HeadIsMost(b, a[0]);
      TailMultiset(b);
      HeadIsMost(a, b[0]);
      assert a[0] == b[0];
      Cancel(a[0], multiset(a[1..]), multiset(b[1..]));
      DescendingIsUnique(a[1..], b[1..]);
      assert a == [a[0]] + a[1..] && b == [b[0]] + b[1..];
    }
  }

  lemma SortIgnoresOrder(a: seq<real>, b: seq<real>)
    requires multiset(a) == multiset(b)
    ensures Sort(a) == Sort(b)
  {
    SortDescends(a);
    SortDescends(b);
    DescendingIsUnique(Sort(a), Sort(b));
  }

  // ---------- Weighted sums ----------

  /** The sum of `s[i]` times the factor of position `i`. */
  function Weighted(s: seq<real>, factor: nat -> real): real {
    if s == [] then 0.0 else Weighted(s[..|s| - 1], factor) + s[|s| - 1] * factor(|s| - 1)
  }

  function Total(s: seq<real>): real {
    if s == [] then 0.0 else s[0] + Total(s[1..])
  }

  lemma {:induction false} TotalSnoc(s: seq<real>, x: real)
    ensures Total(s + [x]) == Total(s) + x
    decreases |s|
  {
    if s == [] {
      assert Total([x]) == x + Total([x][1..]);
      assert s + [x] == [x];
    } else {
      assert (s + [x])[1..] == s[1..] + [x];
      TotalSnoc(s[1..], x);
    }
  }

  lemma {:induction false} InsertTotal(x: real, s: seq<real>)
    ensures Total(Insert(x, s)) == Total(s) + x
    decreases |s|
  {
    if s == [] || x >= s[0] {
      assert ([x] + s)[1..] == s;
    } else {
      InsertTotal(x, s[1..]);
    }
  }

  lemma {:induction false} SortTotal(s: seq<real>)
    ensures Total(Sort(s)) == Total(s)
  {
    if s != [] {
      var init, x := s[..|s| - 1], s[|s| - 1];
      assert s == init + [x];
      SortTotal(init);
      InsertTotal(x, Sort(init));
      TotalSnoc(init, x);
    }
  }

  lemma Scale(a: real, b: real, k: real)
    requires a <= b && 0.0 <= k
    ensures a * k <= b * k
  {
  }

  lemma {:induction false} WeightedMonotone(s: seq<real>, t: seq<real>, factor: nat -> real)
    requires |s| <= |t| && NonNegative(t) && forall i: nat :: factor(i) >= 0.0
    requires forall i :: 0 <= i < |s| ==> s[i] <= t[i]
    ensures Weighted(s, factor) <= Weighted(t, factor)
    decreases |t|
  {
    if t != [] {
      var n := |t| - 1;
      if |s| == |t| {
        Scale(s[n], t[n], factor(n));
        WeightedMonotone(s[..n], t[..n], factor);
      } else {
        Scale(0.0, t[n], factor(n));
        WeightedMonotone(s, t[..n], factor);
      }
    }
  }

  lemma SortSnoc(s: seq<real>, x: real)
    ensures Sort(s + [x]) == Insert(x, Sort(s))
  {
    assert (s + [x])[..|s|] == s;
  }

  /** Adding a weight never lowers the weighted sum of the sorted weights. */
  lemma SortedSumGrows(s: seq<real>, x: real, factor: nat -> real)
    requires NonNegative(s) && x >= 0.0 && forall i: nat :: factor(i) >= 0.0
    ensures Weighted(Sort(s), factor) <= Weighted(Sort(s + [x]), factor)
  {
    hide Insert, Descending, Weighted;
    SortDescends(s);
    InsertRaises(x, Sort(s));
    SortSnoc(s, x);
    forall i | 0 <= i < |Sort(s + [x])| ensures Sort(s + [x])[i] >= 0.0 {
      SortedNonNegative(s + [x], i);
    }
    WeightedMonotone(Sort(s), Sort(s + [x]), factor);
  }

  lemma SortedNonNegative(s: seq<real>, i: nat)
    requires NonNegative(s) && i < |s|
    ensures Sort(s)[i] >= 0.0
  {
    assert Sort(s)[i] in multiset(Sort(s));
    assert Sort(s)[i] in multiset(s);
  }

  /** `Math.round`. */
  function Round(x: real): int {
    (x + 0.5).Floor
  }

  lemma RoundMonotone(x: real, y: real)
    requires x <= y
    ensures Round(x) <= Round(y)
  {
  }

  // ---------- Evidence by category ----------

  function WeightsOf(es: seq<Evidence>, category: string): seq<real> {
    if es == [] then []
    else
      WeightsOf(es[..|es| - 1], category) +
        if es[|es| - 1].category == category then [es[|es| - 1].weight] else []
  }

  function Categories(es: seq<Evidence>): set<string> {
    set e | e in es :: e.category
  }

  function RulesOf(es: seq<Evidence>, category: string): set<string> {
    set e | e in es && e.category == category :: e.rule
  }

  lemma WeightsSnoc(es: seq<Evidence>, x: Evidence, category: string)
    ensures WeightsOf(es + [x], category) ==
      if x.category == category then WeightsOf(es, category) + [x.weight] else WeightsOf(es, category)
  {
    assert (es + [x])[..|es|] == es;
    assert WeightsOf(es, category) + [] == WeightsOf(es, category);
  }

  lemma {:induction false} WeightsOfAppend(a: seq<Evidence>, b: seq<Evidence>, category: string)
    ensures WeightsOf(a + b, category) == WeightsOf(a, category) + WeightsOf(b, category)
    decreases |b|
  {
    if b == [] {
      assert a + b == a;
    } else {
      assert (a + b)[..|a + b| - 1] == a + b[..|b| - 1];
      WeightsOfAppend(a, b[..|b| - 1], category);
    }
  }

  lemma SplitWeights(a: seq<Evidence>, b: seq<Evidence>, category: string)
    ensures multiset(WeightsOf(a + b, category)) == multiset(WeightsOf(a, category)) + multiset(WeightsOf(b, category))
  {
    WeightsOfAppend(a, b, category);
  }

  /** The weights of a category depend on the evidence only as a multiset. */
  lemma {:induction false} WeightsIgnoreOrder(a: seq<Evidence>, b: seq<Evidence>, category: string)
    requires multiset(a) == multiset(b)
    ensures multiset(WeightsOf(a, category)) == multiset(WeightsOf(b, category))
    decreases |a|
  {
    hide WeightsOf;
    if a == [] {
      assert |multiset(b)| == 0;
      assert b == a;
    } else {
      var p, q := RemoveLast(a, b);
      var init, x := a[..|a| - 1], a[|a| - 1];
      WeightsIgnoreOrder(init, p + q, category);
      assert a == init + [x];
      SplitWeights(init, [x], category);
      SplitWeights(p, [x] + q, category);
      SplitWeights([x], q, category);
      SplitWeights(p, q, category);
    }
  }

  lemma RemoveLast<T>(a: seq<T>, b: seq<T>) returns (p: seq<T>, q: seq<T>)
    requires a != [] && multiset(a) == multiset(b)
    ensures b == p + ([a[|a| - 1]] + q) && multiset(p + q) == multiset(a[..|a| - 1])
  {
    var init, x := a[..|a| - 1], a[|a| - 1];
    assert a == init + [x];
    assert x in multiset(b);
    var j :| 0 <= j < |b| && b[j] == x;
    p, q := b[..j], b[j + 1..];
    assert b == p + ([x] + q);
    assert multiset(b) == multiset(p) + multiset{x} + multiset(q);
    assert multiset(init) == multiset(a) - multiset{x};
  }

  lemma SameMembers(a: seq<Evidence>, b: seq<Evidence>)
    requires multiset(a) == multiset(b)
    ensures forall e :: e in a <==> e in b
  {
    assert forall e :: e in a <==> e in multiset(a);
    assert forall e :: e in b <==> e in multiset(b);
  }

  lemma {:induction false} WeightsInherit(es: seq<Evidence>, category: string)
    requires forall e :: e in es ==> e.weight >= 0.0
    ensures NonNegative(WeightsOf(es, category))
    ensures WeightsOf(es, category) != [] <==> category in Categories(es)
  {
    if es != [] {
      var init, x := es[..|es| - 1], es[|es| - 1];
      assert es == init + [x];
      assert forall e :: e in es <==> e in init || e == x;
      WeightsInherit(init, category);
    }
  }

  // ---------- Sums over categories ----------

  ghost function SumOver(keys: set<string>, f: string -> real): real {
    if keys == {} then 0.0
    else
      var c :| c in keys;
      f(c) + SumOver(keys - {c}, f)
  }

  /** The sum does not depend on the order in which the categories are visited. */
  lemma {:induction false} SumRemove(keys: set<string>, f: string -> real, c: string)
    requires c in keys
    ensures SumOver(keys, f) == f(c) + SumOver(keys - {c}, f)
    decreases |keys|
  {
    var d :| d in keys && SumOver(keys, f) == f(d) + SumOver(keys - {d}, f);
    if d != c {
      SumRemove(keys - {d}, f, c);
      SumRemove(keys - {c}, f, d);
      assert keys - {d} - {c} == keys - {c} - {d};
    }
  }

  lemma {:induction false} SumMonotone(keys: set<string>, more: set<string>, f: string -> real, g: string -> real)
    requires keys <= more && (forall c :: c in more ==> g(c) >= 0.0) && forall c :: c in keys ==> f(c) <= g(c)
    ensures SumOver(keys, f) <= SumOver(more, g)
    decreases |more|
  {
    if more != {} {
      var c :| c in more;
      SumRemove(more, g, c);
      if c in keys {
        SumRemove(keys, f, c);
        SumMonotone(keys - {c}, more - {c}, f, g);
      } else {
        SumMonotone(keys, more - {c}, f, g);
      }
    }
  }

  lemma SumCongruent(keys: set<string>, f: string -> real, g: string -> real)
    requires forall c :: c in keys ==> f(c) == g(c)
    ensures SumOver(keys, f) == SumOver(keys, g)
    decreases |keys|
  {
    if keys != {} {
      var c :| c in keys;
      SumRemove(keys, f, c);
      SumRemove(keys, g, c);
      SumCongruent(keys - {c}, f, g);
    }
  }
}
