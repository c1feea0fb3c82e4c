/** script-analyzer.js: capped category scores, the seven combinations, and the verdict. */
module ScriptScoring {
  import opened Prelude
  import opened Weights
  import E = EngineScoring

  type Verdict = E.Verdict

  datatype Severity = Info | Low | Medium | High | Critical

  datatype Finding = Finding(category: string, rule: string, severity: Severity)

  function SeverityWeight(s: Severity): real {
    match s
    case Info => 0.0
    case Low => 4.0
    case Medium => 10.0
    case High => 18.0
    case Critical => 28.0
  }

  datatype Combo = Combo(categories: seq<string>, bonus: real, floor: Verdict)

  /** `COMBINATION_RULES`. */
  const COMBOS: seq<Combo> := [
    Combo(["credential_theft", "data_exfiltration"], 34.0, E.Malicious),
    Combo(["credential_theft", "c2_networking"], 26.0, E.Suspicious),
    Combo(["network_download", "command_execution"], 24.0, E.Suspicious),
    Combo(["dynamic_execution", "obfuscation"], 16.0, E.Suspicious),
    Combo(["dynamic_execution", "obfuscation", "network_download"], 38.0, E.Malicious),
    Combo(["persistence", "command_execution"], 20.0, E.Suspicious),
    Combo(["file_destruction", "command_execution"], 38.0, E.Malicious)]

  // ---------- Specification ----------

  /** Full weight for the strongest finding, 0.35 for the second, 0.15 for the rest. */
  function Factor(): nat -> real {
    i => if i == 0 then 1.0 else if i == 1 then 0.35 else 0.15
  }

  function Cap(x: real): real {
    if x < 40.0 then x else 40.0
  }

  function CategoryScore(weights: seq<real>): real {
    if weights == [] then 0.0 else Cap(Weighted(Sort(weights), Factor()))
  }

  function AsEvidence(f: Finding): Evidence {
    Evidence(f.category, f.rule, SeverityWeight(f.severity))
  }

  /** Findings that carry weight, in order. */
  function Counted(fs: seq<Finding>): seq<Evidence> {
    if fs == [] then []
    else Counted(fs[..|fs| - 1]) + if fs[|fs| - 1].severity == Info then [] else [AsEvidence(fs[|fs| - 1])]
  }

  function ScoreIn(es: seq<Evidence>): string -> real {
    c => CategoryScore(WeightsOf(es, c))
  }

  predicate Fired(combo: Combo, categories: set<string>) {
    forall i :: 0 <= i < |combo.categories| ==> combo.categories[i] in categories
  }

  function Bonus(combos: seq<Combo>, categories: set<string>): real {
    if combos == [] then 0.0
    else
      Bonus(combos[..|combos| - 1], categories) +
        if Fired(combos[|combos| - 1], categories) then combos[|combos| - 1].bonus else 0.0
  }

  ghost function Penalty(es: seq<Evidence>): real {
    SumOver(Categories(es), ScoreIn(es)) + Bonus(COMBOS, Categories(es))
  }

  function Bounded(x: real): real {
    if x < 0.0 then 0.0 else if x > 100.0 then 100.0 else x
  }

  ghost function Score(fs: seq<Finding>): int {
    Round(Bounded(100.0 - Penalty(Counted(fs))))
  }

  function BaseVerdict(score: int): Verdict {
    if score >= 85 then E.Safe else if score >= 50 then E.Suspicious else E.Malicious
  }

  ghost predicate IsFloored(base: Verdict, categories: set<string>, v: Verdict) {
    && E.Rank(v) >= E.Rank(base)
    && (forall i :: 0 <= i < |COMBOS| && Fired(COMBOS[i], categories) ==> E.Rank(v) >= E.Rank(COMBOS[i].floor))
    && (v == base || exists i :: 0 <= i < |COMBOS| && Fired(COMBOS[i], categories) && COMBOS[i].floor == v)
  }

  ghost predicate IsOutcome(fs: seq<Finding>, score: int, v: Verdict) {
    score == Score(fs) && IsFloored(BaseVerdict(score), Categories(Counted(fs)), v)
  }

  // ---------- The scorer ----------

  method SummarizeCategoryScore(items: seq<Evidence>) returns (score: real)
    ensures score == CategoryScore(E.Plain(items))
  {
    if |items| == 0 {
      return 0.0;
    }
    var weights := Sort(E.Plain(items));
    var total := weights[0];
    assert weights[..1] == [weights[0]] && weights[..1][..0] == [];
    for i := 1 to |weights|
      invariant total == Weighted(weights[..i], Factor())
    {
      assert weights[..i + 1][..i] == weights[..i];
      total := total + weights[i] * (if i == 1 then 0.35 else 0.15);
    }
    assert weights[..|weights|] == weights;
    score := if total < 40.0 then total else 40.0;
  }

  /** Groups the findings that carry weight by category. */
  method GroupFindings(fs: seq<Finding>) returns (bucket: E.Bucket)
    ensures fresh(bucket) && bucket.Valid() && bucket.all == Counted(fs)
  {
    bucket := new E.Bucket();
    for i := 0 to |fs|
      invariant fresh(bucket) && bucket.Valid() && bucket.all == Counted(fs[..i])
    {
      assert fs[..i + 1][..i] == fs[..i];
      if SeverityWeight(fs[i].severity) > 0.0 {
        bucket.AddEvidence(AsEvidence(fs[i]));
      } else {
        assert bucket.all + [] == bucket.all;
      }
    }
    assert fs[..|fs|] == fs;
  }

  method SumCategories(bucket: E.Bucket) returns (penalty: real)
    requires bucket.Valid()
    ensures penalty == SumOver(Categories(bucket.all), ScoreIn(bucket.all))
  {
    hide CategoryScore, E.ItemsOf, WeightsOf;
    penalty := 0.0;
    ghost var f, done := ScoreIn(bucket.all), {};
    for i := 0 to |bucket.keys|
      invariant done == set c | c in bucket.keys[..i]
      invariant penalty == SumOver(done, f)
    {
      var c := bucket.keys[i];
      E.ItemsCarryWeights(bucket.all, c);
      var score := SummarizeCategoryScore(bucket.items[c]);
      E.SumAdd(done, f, c);
      done := done + {c};
      penalty := penalty + score;
    }
    assert done == Categories(bucket.all);
  }

  method FireCombos(categories: set<string>) returns (bonus: real, fired: seq<Combo>)
    ensures bonus == Bonus(COMBOS, categories)
    ensures forall c :: c in fired <==> c in COMBOS && Fired(c, categories)
  {
    hide Fired;
    bonus, fired := 0.0, [];
    var combos := COMBOS;
    for i := 0 to |combos|
      invariant bonus == Bonus(combos[..i], categories)
      invariant forall c :: c in fired <==> c in combos[..i] && Fired(c, categories)
    {
      assert combos[..i + 1][..i] == combos[..i] && combos[..i + 1] == combos[..i] + [combos[i]];
      if Fired(combos[i], categories) {
        bonus := bonus + combos[i].bonus;
        fired := fired + [combos[i]];
      }
    }
    assert combos[..|combos|] == combos;
  }

  method ApplyFloors(base: Verdict, fired: seq<Combo>) returns (v: Verdict)
    ensures E.Rank(v) >= E.Rank(base)
    ensures forall i :: 0 <= i < |fired| ==> E.Rank(v) >= E.Rank(fired[i].floor)
    ensures v == base || exists i :: 0 <= i < |fired| && fired[i].floor == v
  {
    v := base;
    for i := 0 to |fired|
      invariant E.Rank(v) >= E.Rank(base)
      invariant forall k :: 0 <= k < i ==> E.Rank(v) >= E.Rank(fired[k].floor)
      invariant v == base || exists k :: 0 <= k < i && fired[k].floor == v
    {
      if E.Rank(fired[i].floor) > E.Rank(v) {
        v := fired[i].floor;
      }
    }
  }

  lemma FloorsAgree(base: Verdict, categories: set<string>, fired: seq<Combo>, v: Verdict)
    requires forall c :: c in fired <==> c in COMBOS && Fired(c, categories)
    requires E.Rank(v) >= E.Rank(base)
    requires forall i :: 0 <= i < |fired| ==> E.Rank(v) >= E.Rank(fired[i].floor)
    requires v == base || exists i :: 0 <= i < |fired| && fired[i].floor == v
    ensures IsFloored(base, categories, v)
  {
    hide Fired;
    var combos := COMBOS;
    forall i | 0 <= i < |combos| && Fired(combos[i], categories) ensures E.Rank(v) >= E.Rank(combos[i].floor) {
      assert combos[i] in fired;
      var k :| 0 <= k < |fired| && fired[k] == combos[i];
    }
    if v != base {
      var i :| 0 <= i < |fired| && fired[i].floor == v;
      assert fired[i] in fired;
      var k :| 0 <= k < |combos| && combos[k] == fired[i];
    }
  }

  method ScoreFindings(fs: seq<Finding>) returns (score: int, v: Verdict)
    ensures IsOutcome(fs, score, v)
  {
    hide Counted, CategoryScore, Bonus, COMBOS;
    var bucket := GroupFindings(fs);
    var penalty := SumCategories(bucket);
    var categories := set c | c in bucket.keys;
    assert categories == Categories(bucket.all);
    var bonus, fired := FireCombos(categories);
    penalty := penalty + bonus;
    score := Round(Bounded(100.0 - penalty));
    v := ApplyFloors(BaseVerdict(score), fired);
    FloorsAgree(BaseVerdict(score), categories, fired, v);
  }

  // ---------- Properties ----------

  lemma OutcomeIsUnique(fs: seq<Finding>, s1: int, v1: Verdict, s2: int, v2: Verdict)
    requires IsOutcome(fs, s1, v1) && IsOutcome(fs, s2, v2)
    ensures s1 == s2 && v1 == v2
  {
    hide Fired, Score, COMBOS;
    assert E.Rank(v1) <= E.Rank(v2) && E.Rank(v2) <= E.Rank(v1);
  }

  lemma {:induction false} CountedMembers(fs: seq<Finding>)
    ensures forall e :: e in Counted(fs) ==> e.weight >= 4.0
    ensures forall f :: f in fs && f.severity != Info ==> AsEvidence(f) in Counted(fs)
  {
    if fs != [] {
      var init, x := fs[..|fs| - 1], fs[|fs| - 1];
      CountedMembers(init);
      assert fs == init + [x];
    }
  }

  lemma ScoreBounds(ws: seq<real>)
    requires NonNegative(ws)
    ensures 0.0 <= CategoryScore(ws) <= 40.0
    ensures forall w :: w in ws && w <= 40.0 ==> w <= CategoryScore(ws)
  {
    if ws != [] {
      var sorted := Sort(ws);
      SortDescends(ws);
      forall i | 0 <= i < |sorted| ensures sorted[i] >= 0.0 {
        SortedNonNegative(ws, i);
      }
      assert Weighted([sorted[0]], Factor()) == sorted[0] by {
        assert [sorted[0]][..0] == [];
      }
      WeightedMonotone([sorted[0]], sorted, Factor());
      forall w | w in ws ensures w <= sorted[0] {
        assert w in multiset(ws);
        HeadIsMost(sorted, w);
      }
    }
  }

  lemma ScoreInBounds(fs: seq<Finding>, c: string)
    ensures 0.0 <= ScoreIn(Counted(fs))(c) <= 40.0
  {
    hide Counted, CategoryScore;
    CountedMembers(fs);
    WeightsInherit(Counted(fs), c);
    ScoreBounds(WeightsOf(Counted(fs), c));
  }

  lemma NamesDiffer()
    ensures forall i :: 0 <= i < |COMBOS| ==> |COMBOS[i].categories| >= 2 && COMBOS[i].categories[0] != COMBOS[i].categories[1]
  {
    assert "credential_theft"[0] == 'c' && "data_exfiltration"[0] == 'd' && "network_download"[0] == 'n';
    assert "credential_theft"[1] == 'r' && "c2_networking"[1] == '2';
    assert "dynamic_execution"[0] == 'd' && "obfuscation"[0] == 'o' && "persistence"[0] == 'p';
    assert "file_destruction"[0] == 'f' && "command_execution"[0] == 'c';
  }

  lemma {:induction false} NothingFires(combos: seq<Combo>, categories: set<string>)
    requires |categories| <= 1
    requires forall i :: 0 <= i < |combos| ==> |combos[i].categories| >= 2 && combos[i].categories[0] != combos[i].categories[1]
    ensures Bonus(combos, categories) == 0.0
    ensures forall i :: 0 <= i < |combos| ==> !Fired(combos[i], categories)
  {
    forall i | 0 <= i < |combos| ensures !Fired(combos[i], categories) {
      var a, b := combos[i].categories[0], combos[i].categories[1];
      if a in categories && b in categories {
        assert {a, b} <= categories;
        E.SubsetSize({a, b}, categories);
        assert false;
      }
    }
    if combos != [] {
      NothingFires(combos[..|combos| - 1], categories);
    }
  }

  /** Findings of one category, however many, never add up to a malicious verdict. */
  lemma OneCategoryIsNotMalicious(fs: seq<Finding>, score: int, v: Verdict)
    requires |Categories(Counted(fs))| <= 1 && IsOutcome(fs, score, v)
    ensures v != E.Malicious && score >= 60
  {
    hide Fired, Counted, COMBOS, Bonus, ScoreIn;
    var es := Counted(fs);
    var categories := Categories(es);
    NamesDiffer();
    NothingFires(COMBOS, categories);
    if categories != {} {
      var c :| c in categories;
      ScoreInBounds(fs, c);
      E.SubsetSize({c}, categories);
      Singleton(categories, c);
      SumRemove(categories, ScoreIn(es), c);
    }
    RoundMonotone(60.0, 100.0 - Penalty(es));
  }

  lemma Singleton(s: set<string>, c: string)
    requires c in s && |s| <= 1
    ensures s - {c} == {}
  {
    assert |s - {c}| == 0;
  }

  /** One high or critical finding excludes a safe verdict. */
  lemma HighFindingIsNotSafe(fs: seq<Finding>, f: Finding, score: int, v: Verdict)
    requires f in fs && (f.severity == High || f.severity == Critical) && IsOutcome(fs, score, v)
    ensures v != E.Safe && score <= 82
  {
    hide Fired, Counted, COMBOS, CategoryScore;
    var es, x := Counted(fs), AsEvidence(f);
    CountedMembers(fs);
    WeightsInherit(es, f.category);
    WeightPresent(es, x);
    ScoreBounds(WeightsOf(es, f.category));
    forall c ensures 0.0 <= ScoreIn(es)(c) {
      ScoreInBounds(fs, c);
    }
    SumMonotone({f.category}, Categories(es), ScoreIn(es), ScoreIn(es));
    SumOne(ScoreIn(es), f.category);
    BonusNonNegative(COMBOS, Categories(es));
    RoundMonotone(100.0 - Penalty(es), 82.0);
  }

  lemma SumOne(f: string -> real, c: string)
    ensures SumOver({c}, f) == f(c)
  {
    SumRemove({c}, f, c);
    assert {c} - {c} == {};
  }

  lemma {:induction false} WeightPresent(es: seq<Evidence>, x: Evidence)
    requires x in es
    ensures x.weight in WeightsOf(es, x.category) && x.category in Categories(es)
  {
    var init, last := es[..|es| - 1], es[|es| - 1];
    assert es == init + [last];
    if x != last {
      WeightPresent(init, x);
    } else {
      assert WeightsOf(es, x.category)[|WeightsOf(init, x.category)|] == x.weight;
    }
  }

  lemma CombosPay()
    ensures forall i :: 0 <= i < |COMBOS| ==> COMBOS[i].bonus >= 0.0
  {
  }

  lemma {:induction false} BonusNonNegative(combos: seq<Combo>, categories: set<string>)
    ensures combos == COMBOS ==> Bonus(combos, categories) >= 0.0
  {
    hide COMBOS, Fired;
    CombosPay();
    if combos == COMBOS {
      BonusGrows(combos, {}, categories);
    }
  }

  /** More categories never take back a combination or its bonus, which is never negative. */
  lemma {:induction false} BonusGrows(combos: seq<Combo>, categories: set<string>, more: set<string>)
    requires categories <= more && forall i :: 0 <= i < |combos| ==> combos[i].bonus >= 0.0
    ensures 0.0 <= Bonus(combos, categories) <= Bonus(combos, more)
  {
    if combos != [] {
      BonusGrows(combos[..|combos| - 1], categories, more);
    }
  }

  lemma {:induction false} CountedAppend(a: seq<Finding>, b: seq<Finding>)
    ensures Counted(a + b) == Counted(a) + Counted(b)
    decreases |b|
  {
    if b == [] {
      assert a + b == a;
    } else {
      assert (a + b)[..|a + b| - 1] == a + b[..|b| - 1];
      CountedAppend(a, b[..|b| - 1]);
    }
  }

  lemma SplitCounted(a: seq<Finding>, b: seq<Finding>)
    ensures multiset(Counted(a + b)) == multiset(Counted(a)) + multiset(Counted(b))
  {
    CountedAppend(a, b);
  }

  /** The evidence depends on the findings only as a multiset. */
  lemma {:induction false} CountedIgnoresOrder(a: seq<Finding>, b: seq<Finding>)
    requires multiset(a) == multiset(b)
    ensures multiset(Counted(a)) == multiset(Counted(b))
    decreases |a|
  {
    hide Counted;
    if a == [] {
      assert |multiset(b)| == 0;
      assert b == a;
    } else {
      var p, q := RemoveLast(a, b);
      var init, x := a[..|a| - 1], a[|a| - 1];
      CountedIgnoresOrder(init, p + q);
      assert a == init + [x];
      SplitCounted(init, [x]);
      SplitCounted(p, [x] + q);
      SplitCounted([x], q);
      SplitCounted(p, q);
    }
  }

  /** Score and verdict do not depend on the order in which rules matched. */
  lemma OutcomeIgnoresOrder(a: seq<Finding>, b: seq<Finding>, score: int, v: Verdict)
    requires multiset(a) == multiset(b)
    ensures IsOutcome(a, score, v) <==> IsOutcome(b, score, v)
  {
    hide Counted, COMBOS, Fired, WeightsOf, Sort, Weighted, Bonus, Categories;
    var x, y := Counted(a), Counted(b);
    CountedIgnoresOrder(a, b);
    E.NoCombo(x, y);
    forall c | c in Categories(x) ensures ScoreIn(x)(c) == ScoreIn(y)(c) {
      WeightsIgnoreOrder(x, y, c);
      SortIgnoresOrder(WeightsOf(x, c), WeightsOf(y, c));
      SameEmpty(WeightsOf(x, c), WeightsOf(y, c));
    }
    SumCongruent(Categories(x), ScoreIn(x), ScoreIn(y));
  }

  lemma SameEmpty(a: seq<real>, b: seq<real>)
    requires multiset(a) == multiset(b)
    ensures a == [] <==> b == []
  {
    assert |multiset(a)| == |a| && |multiset(b)| == |b|;
  }

  lemma ScoreGrows(ws: seq<real>, w: real)
    requires NonNegative(ws) && w >= 0.0
    ensures CategoryScore(ws) <= CategoryScore(ws + [w])
  {
    hide Weighted, Sort;
    SortedSumGrows(ws, w, Factor());
    assert NonNegative(ws + [w]);
    ScoreBounds(ws + [w]);
  }

  lemma CategoryScoreGrows(es: seq<Evidence>, x: Evidence, c: string)
    requires E.Weighed(es + [x])
    ensures 0.0 <= ScoreIn(es)(c) <= ScoreIn(es + [x])(c)
  {
    hide WeightsOf, CategoryScore;
    assert forall e :: e in es ==> e in es + [x];
    assert x in es + [x];
    WeightsInherit(es, c);
    WeightsSnoc(es, x, c);
    ScoreBounds(WeightsOf(es, c));
    if x.category == c {
      ScoreGrows(WeightsOf(es, c), x.weight);
    }
  }

  lemma PenaltyGrows(es: seq<Evidence>, x: Evidence)
    requires E.Weighed(es + [x])
    ensures Penalty(es) <= Penalty(es + [x]) && Categories(es) <= Categories(es + [x])
  {
    hide WeightsOf, CategoryScore, E.Weighed, COMBOS, Fired;
    forall c ensures 0.0 <= ScoreIn(es)(c) <= ScoreIn(es + [x])(c) {
      CategoryScoreGrows(es, x, c);
    }
    E.CategoriesSnoc(es, x);
    SumMonotone(Categories(es), Categories(es + [x]), ScoreIn(es), ScoreIn(es + [x]));
    CombosPay();
    BonusGrows(COMBOS, Categories(es), Categories(es + [x]));
  }

  /** One more finding, wherever it is found, never raises the score and never lowers the verdict. */
  lemma FindingIsMonotone(fs: seq<Finding>, f: Finding, more: seq<Finding>, s1: int, v1: Verdict, s2: int, v2: Verdict)
    requires multiset(more) == multiset(fs + [f])
    requires IsOutcome(fs, s1, v1) && IsOutcome(more, s2, v2)
    ensures s2 <= s1 && E.Rank(v1) <= E.Rank(v2)
  {
    hide Counted, COMBOS, Penalty;
    OutcomeIgnoresOrder(more, fs + [f], s2, v2);
    var es := Counted(fs);
    CountedOne(fs, f);
    if f.severity != Info {
      CountedMembers(fs + [f]);
      PenaltyGrows(es, AsEvidence(f));
      RoundMonotone(Bounded(100.0 - Penalty(Counted(fs + [f]))), Bounded(100.0 - Penalty(es)));
    }
  }

  lemma CountedOne(fs: seq<Finding>, f: Finding)
    ensures Counted(fs + [f]) == if f.severity == Info then Counted(fs) else Counted(fs) + [AsEvidence(f)]
  {
    assert (fs + [f])[..|fs|] == fs;
    assert Counted(fs) + [] == Counted(fs);
  }

  // ---------- What score and verdict say ----------

  /** The combinations that make any script malicious. */
  predicate Deadly(cs: set<string>) {
    || {"credential_theft", "data_exfiltration"} <= cs
    || {"dynamic_execution", "obfuscation", "network_download"} <= cs
    || {"file_destruction", "command_execution"} <= cs
  }

  /** The combinations that no safe script shows. */
  predicate Dubious(cs: set<string>) {
    || {"credential_theft", "c2_networking"} <= cs
    || {"network_download", "command_execution"} <= cs
    || {"dynamic_execution", "obfuscation"} <= cs
    || {"persistence", "command_execution"} <= cs
  }

  /** What the categories found add to the penalty. */
  function Added(cs: set<string>): real {
    (if {"credential_theft", "data_exfiltration"} <= cs then 34.0 else 0.0)
      + (if {"credential_theft", "c2_networking"} <= cs then 26.0 else 0.0)
      + (if {"network_download", "command_execution"} <= cs then 24.0 else 0.0)
      + (if {"dynamic_execution", "obfuscation"} <= cs then 16.0 else 0.0)
      + (if {"dynamic_execution", "obfuscation", "network_download"} <= cs then 38.0 else 0.0)
      + (if {"persistence", "command_execution"} <= cs then 20.0 else 0.0)
      + (if {"file_destruction", "command_execution"} <= cs then 38.0 else 0.0)
  }

  lemma PairFires(i: nat, a: string, b: string, cs: set<string>)
    requires i < |COMBOS| && COMBOS[i].categories == [a, b]
    ensures Fired(COMBOS[i], cs) <==> {a, b} <= cs
  {
    hide COMBOS;
    assert [a, b][0] == a && [a, b][1] == b;
  }

  lemma TripleFires(i: nat, a: string, b: string, c: string, cs: set<string>)
    requires i < |COMBOS| && COMBOS[i].categories == [a, b, c]
    ensures Fired(COMBOS[i], cs) <==> {a, b, c} <= cs
  {
    hide COMBOS;
    assert [a, b, c][0] == a && [a, b, c][1] == b && [a, b, c][2] == c;
  }

  lemma CombosAre(cs: set<string>)
    ensures |COMBOS| == 7
    ensures Fired(COMBOS[0], cs) <==> {"credential_theft", "data_exfiltration"} <= cs
    ensures Fired(COMBOS[1], cs) <==> {"credential_theft", "c2_networking"} <= cs
    ensures Fired(COMBOS[2], cs) <==> {"network_download", "command_execution"} <= cs
    ensures Fired(COMBOS[3], cs) <==> {"dynamic_execution", "obfuscation"} <= cs
    ensures Fired(COMBOS[4], cs) <==> {"dynamic_execution", "obfuscation", "network_download"} <= cs
    ensures Fired(COMBOS[5], cs) <==> {"persistence", "command_execution"} <= cs
    ensures Fired(COMBOS[6], cs) <==> {"file_destruction", "command_execution"} <= cs
  {
    hide Fired;
    PairFires(0, "credential_theft", "data_exfiltration", cs);
    PairFires(1, "credential_theft", "c2_networking", cs);
    PairFires(2, "network_download", "command_execution", cs);
    PairFires(3, "dynamic_execution", "obfuscation", cs);
    TripleFires(4, "dynamic_execution", "obfuscation", "network_download", cs);
    PairFires(5, "persistence", "command_execution", cs);
    PairFires(6, "file_destruction", "command_execution", cs);
  }

  /** A script is malicious for its score or a deadly combination, and safe only when it scores high and shows no combination. */
  lemma VerdictIff(fs: seq<Finding>, score: int, v: Verdict)
    requires IsOutcome(fs, score, v)
    ensures var cs := Categories(Counted(fs));
      && (v == E.Malicious <==> score < 50 || Deadly(cs))
      && (v == E.Safe <==> score >= 85 && !Deadly(cs) && !Dubious(cs))
  {
    hide Fired, Counted, Score;
    var cs := Categories(Counted(fs));
    CombosAre(cs);
    FloorsAre();
    hide COMBOS;
  }

  lemma FloorsAre()
    ensures |COMBOS| == 7
    ensures COMBOS[0].floor == COMBOS[4].floor == COMBOS[6].floor == E.Malicious
    ensures COMBOS[1].floor == COMBOS[2].floor == COMBOS[3].floor == COMBOS[5].floor == E.Suspicious
    ensures COMBOS[0].bonus == 34.0 && COMBOS[1].bonus == 26.0 && COMBOS[2].bonus == 24.0 && COMBOS[3].bonus == 16.0
    ensures COMBOS[4].bonus == COMBOS[6].bonus == 38.0 && COMBOS[5].bonus == 20.0
  {
  }

  lemma BonusStep(n: nat, cs: set<string>)
    requires n < |COMBOS|
    ensures Bonus(COMBOS[..n + 1], cs) == Bonus(COMBOS[..n], cs) + if Fired(COMBOS[n], cs) then COMBOS[n].bonus else 0.0
  {
    hide COMBOS, Fired;
    assert COMBOS[..n + 1][..n] == COMBOS[..n];
  }

  /** What the combinations add to the penalty. */
  lemma BonusIs(cs: set<string>)
    ensures Bonus(COMBOS, cs) == Added(cs)
  {
    CombosAre(cs);
    FloorsAre();
    hide COMBOS, Fired;
    assert Bonus(COMBOS[..0], cs) == 0.0;
    hide Bonus;
    BonusStep(0, cs);
    BonusStep(1, cs);
    BonusStep(2, cs);
    BonusStep(3, cs);
    BonusStep(4, cs);
    BonusStep(5, cs);
    BonusStep(6, cs);
    assert COMBOS[..7] == COMBOS;
  }

  lemma WeightedSnoc(s: seq<real>, x: real)
    ensures Weighted(s + [x], Factor())
      == Weighted(s, Factor()) + if s == [] then x else if |s| == 1 then 0.35 * x else 0.15 * x
  {
    assert (s + [x])[..|s|] == s;
  }

  lemma OfNothing(c: string)
    ensures Counted([]) == [] && WeightsOf([], c) == [] && Weighted([], Factor()) == 0.0 && Total([]) == 0.0
  {
  }

  lemma {:induction false} WeightedIs(s: seq<real>)
    requires |s| >= 2
    ensures Weighted(s, Factor()) == s[0] + 0.35 * s[1] + 0.15 * (Total(s) - s[0] - s[1])
  {
    hide Weighted, Total, Factor;
    var init, x := s[..|s| - 1], s[|s| - 1];
    assert s == init + [x];
    TotalSnoc(init, x);
    WeightedSnoc(init, x);
    if |init| > 1 {
      WeightedIs(init);
    } else {
      assert init == [s[0]];
      OnlyOne(s[0]);
      OfNothing("");
      TotalSnoc([], s[0]);
      WeightedSnoc([], s[0]);
    }
  }

  /** Of the findings of a category the two strongest count in full and at 0.35, the others at 0.15, up to 40 together. */
  lemma CategoryScoreIs(ws: seq<real>, strongest: seq<real>)
    requires |ws| >= 2 && multiset(strongest) == multiset(ws) && Descending(strongest)
    ensures |strongest| == |ws|
    ensures CategoryScore(ws) == Cap(strongest[0] + 0.35 * strongest[1] + 0.15 * (Total(ws) - strongest[0] - strongest[1]))
  {
    hide Sort, Weighted, Total, Cap;
    assert |multiset(strongest)| == |multiset(ws)|;
    SortDescends(ws);
    DescendingIsUnique(Sort(ws), strongest);
    SortTotal(ws);
    WeightedIs(strongest);
  }

  lemma OnlyOne<T>(x: T)
    ensures [] + [x] == [x]
  {
  }

  lemma OneSorted(w: real)
    ensures Sort([w]) == [w]
  {
    assert multiset([w]) == multiset{w};
    var sorted := Sort([w]);
    assert |sorted| == 1 && sorted[0] in multiset(sorted);
    hide Sort;
  }

  lemma OneWeight(w: real)
    ensures CategoryScore([w]) == Cap(w)
  {
    OneSorted(w);
    OfNothing("");
    OnlyOne(w);
    WeightedSnoc([], w);
    hide Weighted, Sort, Cap;
  }

  /** What one finding comes to as evidence. */
  lemma OneCounted(f: Finding)
    ensures var es := Counted([f]);
      if f.severity == Info then es == [] && Categories(es) == {}
      else es == [AsEvidence(f)] && Categories(es) == {f.category} && WeightsOf(es, f.category) == [SeverityWeight(f.severity)]
  {
    hide Counted, WeightsOf;
    OfNothing(f.category);
    CountedOne([], f);
    OnlyOne(f);
    OnlyOne(AsEvidence(f));
    OnlyOne(SeverityWeight(f.severity));
    WeightsSnoc([], AsEvidence(f), f.category);
  }

  lemma OnePenalty(f: Finding)
    ensures Penalty(Counted([f])) == SeverityWeight(f.severity)
  {
    hide Counted, COMBOS, Fired, CategoryScore, WeightsOf, Categories;
    OneCounted(f);
    NamesDiffer();
    NothingFires(COMBOS, Categories(Counted([f])));
    if f.severity != Info {
      OneWeight(SeverityWeight(f.severity));
      SumOne(ScoreIn(Counted([f])), f.category);
    }
  }

  /** A single finding costs its severity, and its verdict is safe up to a medium one. */
  lemma OneFinding(f: Finding, score: int, v: Verdict)
    requires IsOutcome([f], score, v)
    ensures score == match f.severity
      case Info => 100
      case Low => 96
      case Medium => 90
      case High => 82
      case Critical => 72
    ensures v == if f.severity == High || f.severity == Critical then E.Suspicious else E.Safe
  {
    hide COMBOS, Fired, Counted, Penalty, Categories;
    OnePenalty(f);
    OneCounted(f);
    NamesDiffer();
    NothingFires(COMBOS, Categories(Counted([f])));
  }
}
