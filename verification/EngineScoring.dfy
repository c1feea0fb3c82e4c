/** engine.js: evidence buckets, category scores, combination bonuses and risk floors. */
module EngineScoring {
  import opened Prelude
  import opened Weights

  datatype Verdict = Safe | Suspicious | Malicious

  function Rank(v: Verdict): nat {
    match v
    case Safe => 0
    case Suspicious => 1
    case Malicious => 2
  }

  datatype Multiplicity = Multiplicity(category: string, minDistinct: nat)

  datatype Combo = Combo(
    categories: Option<seq<string>>, minMatched: Option<nat>, multiple: Option<Multiplicity>,
    bonus: real, floor: Option<Verdict>)

  datatype Rules = Rules(maxScore: real, safeThreshold: real, suspiciousThreshold: real, combos: seq<Combo>)

  /** What `validateRules` establishes about the numbers used here. */
  predicate Validated(rules: Rules) {
    && 0.0 < rules.maxScore <= 100.0
    && 0.0 <= rules.suspiciousThreshold <= rules.safeThreshold <= rules.maxScore
    && forall i :: 0 <= i < |rules.combos| ==> 0.0 <= rules.combos[i].bonus <= 100.0
  }

  // ---------- Specification ----------

  /** Full weight for the strongest item of a category, two fifths for every other one. */
  function Factor(): nat -> real {
    i => if i == 0 then 1.0 else 0.4
  }

  function CategoryScore(weights: seq<real>): int {
    if weights == [] then 0 else Round(Weighted(Sort(weights), Factor()))
  }

  function ScoreIn(es: seq<Evidence>): string -> real {
    c => CategoryScore(WeightsOf(es, c)) as real
  }

  function MatchedCount(required: seq<string>, categories: set<string>): (n: nat)
    ensures n <= |required|
  {
    if required == [] then 0
    else MatchedCount(required[..|required| - 1], categories) + if required[|required| - 1] in categories then 1 else 0
  }

  /** `min_categories_matched || req.length`: a missing number, or zero, means all of them. */
  function Needed(combo: Combo): nat
    requires combo.categories.Some?
  {
    if combo.minMatched.Some? && combo.minMatched.value > 0 then combo.minMatched.value else |combo.categories.value|
  }

  predicate Fired(combo: Combo, es: seq<Evidence>) {
    if combo.categories.Some? then
      MatchedCount(combo.categories.value, Categories(es)) >= Needed(combo)
    else
      && combo.multiple.Some? && combo.multiple.value.category in Categories(es)
      && |RulesOf(es, combo.multiple.value.category)| >= combo.multiple.value.minDistinct
  }

  function Bonus(combos: seq<Combo>, es: seq<Evidence>): real {
    if combos == [] then 0.0
    else
      var last := combos[|combos| - 1];
      Bonus(combos[..|combos| - 1], es) + if Fired(last, es) then last.bonus else 0.0
  }

  ghost function Penalty(rules: Rules, es: seq<Evidence>): real {
    SumOver(Categories(es), ScoreIn(es)) + Bonus(rules.combos, es)
  }

  function Clamp(n: int): int {
    if n < 0 then 0 else if n > 100 then 100 else n
  }

  function BaseVerdict(rules: Rules, blacklisted: bool, score: int): Verdict {
    if blacklisted then Malicious
    else if score as real >= rules.safeThreshold then Safe
    else if score as real >= rules.suspiciousThreshold then Suspicious
    else Malicious
  }

  /** A verdict the floors of the fired combinations allow, and no stricter than they ask for. */
  ghost predicate IsFloored(base: Verdict, combos: seq<Combo>, es: seq<Evidence>, v: Verdict) {
    && Rank(v) >= Rank(base)
    && (forall i :: 0 <= i < |combos| && Fired(combos[i], es) && combos[i].floor.Some? ==>
          Rank(v) >= Rank(combos[i].floor.value))
    && (v == base || exists i :: 0 <= i < |combos| && Fired(combos[i], es) && combos[i].floor == Some(v))
  }

  ghost function Score(rules: Rules, es: seq<Evidence>): int {
    Clamp(Round(rules.maxScore - Penalty(rules, es)))
  }

  /** The outcome of a scan, up to the unique verdict the floors determine. */
  ghost predicate IsOutcome(rules: Rules, blacklisted: bool, es: seq<Evidence>, score: int, v: Verdict) {
    score == Score(rules, es) && IsFloored(BaseVerdict(rules, blacklisted, score), rules.combos, es, v)
  }

  // ---------- Evidence bucket ----------

  function ItemsOf(es: seq<Evidence>, category: string): seq<Evidence> {
    if es == [] then []
    else ItemsOf(es[..|es| - 1], category) + if es[|es| - 1].category == category then [es[|es| - 1]] else []
  }

  function Plain(items: seq<Evidence>): seq<real> {
    seq(|items|, i requires 0 <= i < |items| => items[i].weight)
  }

  lemma {:induction false} ItemsAreMembers(es: seq<Evidence>, category: string)
    ensures forall e :: e in ItemsOf(es, category) <==> e in es && e.category == category
  {
    if es != [] {
      var init, x := es[..|es| - 1], es[|es| - 1];
      ItemsAreMembers(init, category);
      assert es == init + [x];
    }
  }

  lemma {:induction false} ItemsCarryWeights(es: seq<Evidence>, category: string)
    ensures Plain(ItemsOf(es, category)) == WeightsOf(es, category)
  {
    if es != [] {
      ItemsCarryWeights(es[..|es| - 1], category);
    }
  }

  lemma ItemsNonEmpty(es: seq<Evidence>, category: string)
    ensures ItemsOf(es, category) != [] <==> category in Categories(es)
  {
    ItemsAreMembers(es, category);
    if ItemsOf(es, category) != [] {
      assert ItemsOf(es, category)[0] in es;
    }
  }

  lemma ItemsSnoc(es: seq<Evidence>, x: Evidence, category: string)
    ensures ItemsOf(es + [x], category) == ItemsOf(es, category) + if x.category == category then [x] else []
  {
    assert (es + [x])[..|es|] == es;
  }

  lemma CategoriesSnoc(es: seq<Evidence>, x: Evidence)
    ensures Categories(es + [x]) == Categories(es) + {x.category}
  {
    assert forall e :: e in es + [x] <==> e in es || e == x;
  }

  /** Distinct keys, one item list per category present. */
  ghost predicate Consistent(keys: seq<string>, items: map<string, seq<Evidence>>, all: seq<Evidence>) {
    && (forall i, j :: 0 <= i < j < |keys| ==> keys[i] != keys[j])
    && (forall c :: c in items <==> c in keys)
    && (forall c :: c in items <==> c in Categories(all))
    && (forall c :: c in items ==> items[c] == ItemsOf(all, c))
  }

  lemma ConsistentAfter(keys: seq<string>, items: map<string, seq<Evidence>>, all: seq<Evidence>, x: Evidence)
    requires Consistent(keys, items, all)
    ensures var c := x.category;
      Consistent(if c in items then keys else keys + [c], items[c := ItemsOf(all, c) + [x]], all + [x])
  {
    hide ItemsOf, Categories;
    CategoriesSnoc(all, x);
    forall c ensures ItemsOf(all + [x], c) == ItemsOf(all, c) + if x.category == c then [x] else [] {
      ItemsSnoc(all, x, c);
    }
  }

  /** The Map from category to items, in insertion order. */
  class Bucket {
    var keys: seq<string>
    var items: map<string, seq<Evidence>>
    ghost var all: seq<Evidence>

    ghost predicate Valid()
      reads this
    {
      Consistent(keys, items, all)
    }

    constructor ()
      ensures Valid() && all == []
    {
      keys, items, all := [], map[], [];
    }

    method AddEvidence(item: Evidence)
      requires Valid()
      modifies this
      ensures Valid() && all == old(all) + [item]
      ensures items == old(items)[item.category := ItemsOf(old(all), item.category) + [item]]
      ensures keys == if item.category in old(items) then old(keys) else old(keys) + [item.category]
    {
      hide ItemsOf, Categories;
      ConsistentAfter(keys, items, all, item);
      ItemsNonEmpty(all, item.category);
      var key := item.category;
      if key !in items {
        keys := keys + [key];
        items := items[key := []];
      }
      items := items[key := items[key] + [item]];
      all := all + [item];
    }
  }

  method SummarizeCategoryScore(items: seq<Evidence>) returns (score: int)
    ensures score == CategoryScore(Plain(items))
  {
    var weights := Sort(Plain(items));
    if |weights| == 0 {
      return 0;
    }
    var total := weights[0];
    assert weights[..1] == [weights[0]] && weights[..1][..0] == [];
    for i := 1 to |weights|
      invariant total == Weighted(weights[..i], Factor())
    {
      assert weights[..i + 1][..i] == weights[..i];
      total := total + weights[i] * 0.4;
    }
    assert weights[..|weights|] == weights;
    score := Round(total);
  }

  // ---------- The scoring loops ----------

  method CountMatched(required: seq<string>, categories: set<string>) returns (n: nat)
    ensures n == MatchedCount(required, categories)
  {
    n := 0;
    for i := 0 to |required|
      invariant n == MatchedCount(required[..i], categories)
    {
      assert required[..i + 1][..i] == required[..i];
      if required[i] in categories { n := n + 1; }
    }
    assert required[..|required|] == required;
  }

  method ComboFires(combo: Combo, bucket: Bucket) returns (fired: bool)
    requires bucket.Valid()
    ensures fired == Fired(combo, bucket.all)
  {
    fired := false;
    var categories := set c | c in bucket.keys;
    assert categories == Categories(bucket.all);
    if combo.categories.Some? {
      var needed := if combo.minMatched.Some? && combo.minMatched.value > 0 then combo.minMatched.value else |combo.categories.value|;
      var count := CountMatched(combo.categories.value, categories);
      fired := count >= needed;
    } else if combo.multiple.Some? {
      var m := combo.multiple.value;
      if m.category in bucket.items {
        ItemsAreMembers(bucket.all, m.category);
        var distinct := set e | e in bucket.items[m.category] :: e.rule;
        assert distinct == RulesOf(bucket.all, m.category);
        fired := |distinct| >= m.minDistinct;
      }
    }
  }

  method SumCategories(bucket: Bucket) returns (penalty: real)
    requires bucket.Valid()
    ensures penalty == SumOver(Categories(bucket.all), ScoreIn(bucket.all))
  {
    hide CategoryScore, ItemsOf, WeightsOf;
    penalty := 0.0;
    ghost var f, done := ScoreIn(bucket.all), {};
    for i := 0 to |bucket.keys|
      invariant done == set c | c in bucket.keys[..i]
      invariant penalty == SumOver(done, f)
    {
      var c := bucket.keys[i];
      ItemsCarryWeights(bucket.all, c);
      var score := SummarizeCategoryScore(bucket.items[c]);
      SumAdd(done, f, c);
      done := done + {c};
      penalty := penalty + score as real;
    }
    assert done == Categories(bucket.all);
  }

  lemma SumAdd(keys: set<string>, f: string -> real, c: string)
    requires c !in keys
    ensures SumOver(keys + {c}, f) == SumOver(keys, f) + f(c)
  {
    SumRemove(keys + {c}, f, c);
    assert keys + {c} - {c} == keys;
  }

  method FireCombos(combos: seq<Combo>, bucket: Bucket) returns (bonus: real, fired: seq<Combo>)
    requires bucket.Valid()
    ensures bonus == Bonus(combos, bucket.all)
    ensures forall c :: c in fired <==> c in combos && Fired(c, bucket.all)
  {
    bonus, fired := 0.0, [];
    for i := 0 to |combos|
      invariant bonus == Bonus(combos[..i], bucket.all)
      invariant forall c :: c in fired <==> c in combos[..i] && Fired(c, bucket.all)
    {
      var fires := ComboFires(combos[i], bucket);
      assert combos[..i + 1][..i] == combos[..i] && combos[..i + 1] == combos[..i] + [combos[i]];
      if fires {
        bonus := bonus + combos[i].bonus;
        fired := fired + [combos[i]];
      }
    }
    assert combos[..|combos|] == combos;
  }

  method ApplyFloors(base: Verdict, fired: seq<Combo>) returns (v: Verdict)
    ensures Rank(v) >= Rank(base)
    ensures forall i :: 0 <= i < |fired| && fired[i].floor.Some? ==> Rank(v) >= Rank(fired[i].floor.value)
    ensures v == base || exists i :: 0 <= i < |fired| && fired[i].floor == Some(v)
  {
    v := base;
    for i := 0 to |fired|
      invariant Rank(v) >= Rank(base)
      invariant forall k :: 0 <= k < i && fired[k].floor.Some? ==> Rank(v) >= Rank(fired[k].floor.value)
      invariant v == base || exists k :: 0 <= k < i && fired[k].floor == Some(v)
    {
      if fired[i].floor.Some? && Rank(fired[i].floor.value) > Rank(v) {
        v := fired[i].floor.value;
      }
    }
  }

  method ScoreEvidence(rules: Rules, blacklisted: bool, es: seq<Evidence>) returns (score: int, v: Verdict)
    ensures IsOutcome(rules, blacklisted, es, score, v)
  {
    hide Fired, Bonus, Clamp, CategoryScore, IsFloored, Categories;
    var bucket := new Bucket();
    for i := 0 to |es|
      invariant bucket.Valid() && bucket.all == es[..i] && fresh(bucket)
    {
      bucket.AddEvidence(es[i]);
    }
    assert es[..|es|] == es;
    var penalty := SumCategories(bucket);
    var bonus, fired := FireCombos(rules.combos, bucket);
    penalty := penalty + bonus;
    score := Clamp(Round(rules.maxScore - penalty));
    v := ApplyFloors(BaseVerdict(rules, blacklisted, score), fired);
    FloorsAgree(BaseVerdict(rules, blacklisted, score), rules.combos, es, fired, v);
  }

  lemma FloorsAgree(base: Verdict, combos: seq<Combo>, es: seq<Evidence>, fired: seq<Combo>, v: Verdict)
    requires forall c :: c in fired <==> c in combos && Fired(c, es)
    requires Rank(v) >= Rank(base)
    requires forall i :: 0 <= i < |fired| && fired[i].floor.Some? ==> Rank(v) >= Rank(fired[i].floor.value)
    requires v == base || exists i :: 0 <= i < |fired| && fired[i].floor == Some(v)
    ensures IsFloored(base, combos, es, v)
  {
    hide Fired;
    forall i | 0 <= i < |combos| && Fired(combos[i], es) && combos[i].floor.Some?
      ensures Rank(v) >= Rank(combos[i].floor.value)
    {
      assert combos[i] in fired;
      var k :| 0 <= k < |fired| && fired[k] == combos[i];
    }
    if v != base {
      var i :| 0 <= i < |fired| && fired[i].floor == Some(v);
      assert fired[i] in fired;
      var k :| 0 <= k < |combos| && combos[k] == fired[i];
    }
  }

  // ---------- Properties ----------

  /** The score and the verdict are determined by the evidence. */
  lemma OutcomeIsUnique(rules: Rules, blacklisted: bool, es: seq<Evidence>, s1: int, v1: Verdict, s2: int, v2: Verdict)
    requires IsOutcome(rules, blacklisted, es, s1, v1) && IsOutcome(rules, blacklisted, es, s2, v2)
    ensures s1 == s2 && v1 == v2
  {
    hide Fired, Score;
    var base := BaseVerdict(rules, blacklisted, s1);
    assert Rank(v1) <= Rank(v2) && Rank(v2) <= Rank(v1);
  }

  ghost predicate Weighed(es: seq<Evidence>) {
    forall e :: e in es ==> e.weight >= 0.0
  }

  lemma FiredIgnoresOrder(combo: Combo, a: seq<Evidence>, b: seq<Evidence>)
    requires multiset(a) == multiset(b)
    ensures Categories(a) == Categories(b) && (Fired(combo, a) <==> Fired(combo, b))
  {
    SameMembers(a, b);
    if combo.multiple.Some? {
      assert RulesOf(a, combo.multiple.value.category) == RulesOf(b, combo.multiple.value.category);
    }
  }

  lemma {:induction false} BonusIgnoresOrder(combos: seq<Combo>, a: seq<Evidence>, b: seq<Evidence>)
    requires multiset(a) == multiset(b)
    ensures Bonus(combos, a) == Bonus(combos, b)
  {
    hide Fired;
    if combos != [] {
      BonusIgnoresOrder(combos[..|combos| - 1], a, b);
      FiredIgnoresOrder(combos[|combos| - 1], a, b);
    }
  }

  /** Score and verdict do not depend on the order in which evidence was found. */
  lemma OutcomeIgnoresOrder(rules: Rules, blacklisted: bool, a: seq<Evidence>, b: seq<Evidence>, score: int, v: Verdict)
    requires multiset(a) == multiset(b)
    ensures IsOutcome(rules, blacklisted, a, score, v) <==> IsOutcome(rules, blacklisted, b, score, v)
  {
    hide Fired, Categories, WeightsOf, Sort, Weighted;
    forall c | c in Categories(a) ensures ScoreIn(a)(c) == ScoreIn(b)(c) {
      WeightsIgnoreOrder(a, b, c);
      SortIgnoresOrder(WeightsOf(a, c), WeightsOf(b, c));
    }
    forall i | 0 <= i < |rules.combos| ensures Fired(rules.combos[i], a) <==> Fired(rules.combos[i], b) {
      FiredIgnoresOrder(rules.combos[i], a, b);
    }
    NoCombo(a, b);
    SumCongruent(Categories(a), ScoreIn(a), ScoreIn(b));
    BonusIgnoresOrder(rules.combos, a, b);
  }

  lemma NoCombo(a: seq<Evidence>, b: seq<Evidence>)
    requires multiset(a) == multiset(b)
    ensures Categories(a) == Categories(b)
  {
    SameMembers(a, b);
  }

  /** More evidence never lowers a category score. */
  lemma CategoryScoreGrows(es: seq<Evidence>, x: Evidence, c: string)
    requires Weighed(es + [x])
    ensures 0.0 <= ScoreIn(es)(c) <= ScoreIn(es + [x])(c)
  {
    assert forall e :: e in es ==> e in es + [x];
    assert x in es + [x];
    WeightsInherit(es, c);
    assert (es + [x])[..|es|] == es;
    var ws := WeightsOf(es, c);
    ScoreNonNegative(ws);
    if x.category == c {
      SortedSumGrows(ws, x.weight, Factor());
      if ws != [] {
        RoundMonotone(Weighted(Sort(ws), Factor()), Weighted(Sort(ws + [x.weight]), Factor()));
      } else {
        ScoreNonNegative(ws + [x.weight]);
      }
    } else {
      assert ws + [] == ws;
    }
  }

  lemma ScoreNonNegative(ws: seq<real>)
    requires NonNegative(ws)
    ensures CategoryScore(ws) >= 0
  {
    if ws != [] {
      forall i | 0 <= i < |ws| ensures Sort(ws)[i] >= 0.0 {
        SortedNonNegative(ws, i);
      }
      assert Weighted([], Factor()) == 0.0;
      WeightedMonotone([], Sort(ws), Factor());
      RoundMonotone(0.0, Weighted(Sort(ws), Factor()));
    }
  }

  lemma {:induction false} MatchedCountGrows(required: seq<string>, categories: set<string>, more: set<string>)
    requires categories <= more
    ensures MatchedCount(required, categories) <= MatchedCount(required, more)
  {
    if required != [] {
      MatchedCountGrows(required[..|required| - 1], categories, more);
    }
  }

  lemma SubsetSize<T>(a: set<T>, b: set<T>)
    requires a <= b
    ensures |a| <= |b|
  {
    assert b == a + (b - a);
  }

  /** More evidence never takes back a combination. */
  lemma FiredStays(combo: Combo, es: seq<Evidence>, x: Evidence)
    requires Fired(combo, es)
    ensures Fired(combo, es + [x])
  {
    assert forall e :: e in es ==> e in es + [x];
    if combo.categories.Some? {
      MatchedCountGrows(combo.categories.value, Categories(es), Categories(es + [x]));
    } else {
      var c := combo.multiple.value.category;
      SubsetSize(RulesOf(es, c), RulesOf(es + [x], c));
    }
  }

  lemma {:induction false} BonusGrows(combos: seq<Combo>, es: seq<Evidence>, x: Evidence)
    requires forall i :: 0 <= i < |combos| ==> combos[i].bonus >= 0.0
    ensures Bonus(combos, es) <= Bonus(combos, es + [x])
  {
    hide Fired;
    if combos != [] {
      var last := combos[|combos| - 1];
      BonusGrows(combos[..|combos| - 1], es, x);
      if Fired(last, es) {
        FiredStays(last, es, x);
      }
    }
  }

  /**
   * For validated rules, one more item of evidence, wherever it is found, never raises the score, never un-fires a
   * combination and never lowers the verdict.
   */
  lemma EvidenceIsMonotone(rules: Rules, blacklisted: bool, es: seq<Evidence>, x: Evidence, more: seq<Evidence>,
                           s1: int, v1: Verdict, s2: int, v2: Verdict)
    requires Validated(rules) && Weighed(es + [x]) && multiset(more) == multiset(es + [x])
    requires IsOutcome(rules, blacklisted, es, s1, v1) && IsOutcome(rules, blacklisted, more, s2, v2)
    ensures s2 <= s1 && Rank(v1) <= Rank(v2)
    ensures forall i :: 0 <= i < |rules.combos| && Fired(rules.combos[i], es) ==> Fired(rules.combos[i], more)
  {
    hide Fired, Categories, WeightsOf, Sort, Weighted, Penalty;
    OutcomeIgnoresOrder(rules, blacklisted, more, es + [x], s2, v2);
    forall i | 0 <= i < |rules.combos| && Fired(rules.combos[i], es)
      ensures Fired(rules.combos[i], es + [x]) && Fired(rules.combos[i], more)
    {
      FiredStays(rules.combos[i], es, x);
      FiredIgnoresOrder(rules.combos[i], more, es + [x]);
    }
    PenaltyGrows(rules, es, x);
    RoundMonotone(rules.maxScore - Penalty(rules, es + [x]), rules.maxScore - Penalty(rules, es));
  }

  lemma PenaltyGrows(rules: Rules, es: seq<Evidence>, x: Evidence)
    requires Validated(rules) && Weighed(es + [x])
    ensures Penalty(rules, es) <= Penalty(rules, es + [x])
  {
    hide Fired, WeightsOf, CategoryScore, Weighed;
    forall c ensures 0.0 <= ScoreIn(es)(c) <= ScoreIn(es + [x])(c) {
      CategoryScoreGrows(es, x, c);
    }
    assert forall e :: e in es ==> e in es + [x];
    SumMonotone(Categories(es), Categories(es + [x]), ScoreIn(es), ScoreIn(es + [x]));
    BonusGrows(rules.combos, es, x);
  }

  // ---------- What score and verdict say ----------

  ghost predicate FloorAt(rules: Rules, es: seq<Evidence>, v: Verdict) {
    exists i :: 0 <= i < |rules.combos| && Fired(rules.combos[i], es) && rules.combos[i].floor == Some(v)
  }

  /** A blacklisted file is malicious whatever it scores; otherwise the thresholds decide, and the floors of what has fired. */
  lemma VerdictIff(rules: Rules, blacklisted: bool, es: seq<Evidence>, score: int, v: Verdict)
    requires Validated(rules) && IsOutcome(rules, blacklisted, es, score, v)
    ensures v == Malicious <==>
      blacklisted || (score as real) < rules.suspiciousThreshold || FloorAt(rules, es, Malicious)
    ensures v == Safe <==>
      !blacklisted && score as real >= rules.safeThreshold && !FloorAt(rules, es, Suspicious) && !FloorAt(rules, es, Malicious)
  {
    hide Fired, Score;
  }

  lemma WeightedSnoc(s: seq<real>, x: real)
    ensures Weighted(s + [x], Factor()) == Weighted(s, Factor()) + if s == [] then x else 0.4 * x
  {
    assert (s + [x])[..|s|] == s;
  }

  lemma OfNothing()
    ensures Weighted([], Factor()) == 0.0 && Total([]) == 0.0
  {
  }

  lemma {:induction false} WeightedIs(s: seq<real>)
    requires s != []
    ensures Weighted(s, Factor()) == s[0] + 0.4 * (Total(s) - s[0])
  {
    hide Weighted, Total, Factor;
    var init, x := s[..|s| - 1], s[|s| - 1];
    assert s == init + [x];
    TotalSnoc(init, x);
    WeightedSnoc(init, x);
    if init != [] {
      WeightedIs(init);
    } else {
      OfNothing();
    }
  }

  /** The strongest item of a category counts in full and all others at two fifths, in whatever order they come. */
  lemma CategoryScoreIs(ws: seq<real>, most: real)
    requires most in ws && forall w :: w in ws ==> w <= most
    ensures CategoryScore(ws) == Round(most + 0.4 * (Total(ws) - most))
  {
    hide Sort, Weighted, Total, Round;
    var sorted := Sort(ws);
    SortDescends(ws);
    SortTotal(ws);
    assert most in multiset(ws);
    HeadIsMost(sorted, most);
    assert sorted[0] in multiset(sorted) && sorted[0] in ws;
    WeightedIs(sorted);
  }

  function Found(required: seq<string>, categories: set<string>): set<string> {
    set c | c in required && c in categories
  }

  lemma FoundSnoc(init: seq<string>, last: string, categories: set<string>)
    requires last !in init
    ensures last !in Found(init, categories)
    ensures Found(init + [last], categories) == Found(init, categories) + if last in categories then {last} else {}
    ensures Found([], categories) == {}
  {
  }

  lemma {:induction false} MatchedIs(required: seq<string>, categories: set<string>)
    requires forall i, j :: 0 <= i < j < |required| ==> required[i] != required[j]
    ensures MatchedCount(required, categories) == |Found(required, categories)|
  {
    hide Found;
    if required == [] {
      FoundSnoc([], "", categories);
    } else {
      var init, last := required[..|required| - 1], required[|required| - 1];
      assert required == init + [last] && last !in init;
      MatchedIs(init, categories);
      FoundSnoc(init, last, categories);
    }
  }

  /** A combination of different categories fires when enough of them have evidence; one of rules, when enough rules of it matched. */
  lemma FiredIff(combo: Combo, es: seq<Evidence>)
    requires combo.categories.Some? ==>
      forall i, j :: 0 <= i < j < |combo.categories.value| ==> combo.categories.value[i] != combo.categories.value[j]
    ensures combo.categories.Some? ==>
      (Fired(combo, es) <==>
        |Found(combo.categories.value, Categories(es))| >= if combo.minMatched.Some? && combo.minMatched.value > 0 then combo.minMatched.value else |combo.categories.value|)
    ensures combo.categories.None? && combo.multiple.Some? && combo.multiple.value.minDistinct > 0 ==>
      (Fired(combo, es) <==>
        var rules := set e | e in es && e.category == combo.multiple.value.category :: e.rule;
        |rules| >= combo.multiple.value.minDistinct)
  {
    if combo.categories.Some? {
      MatchedIs(combo.categories.value, Categories(es));
    } else if combo.multiple.Some? {
      var m := combo.multiple.value;
      assert RulesOf(es, m.category) == set e | e in es && e.category == m.category :: e.rule;
      if RulesOf(es, m.category) != {} {
        var r :| r in RulesOf(es, m.category);
        var e :| e in es && e.category == m.category && e.rule == r;
      }
    }
  }
}
