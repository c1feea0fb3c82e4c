/** The threat-intelligence cache: entries that expire, an upper bound on their number, and the plain history behind them. */
module ThreatCache {
  import opened Prelude
  import PackageSeal

  type Bytes = seq<byte>

  datatype Status = KnownMalicious | NotFound | OtherStatus

  /** A lookup result as a provider reports it; `metadata` stands for what is kept of a hit. */
  datatype Result = Result(hash: JsString, status: Status, metadata: Bytes)

  datatype Entry = Entry(hash: JsString, status: Status, cachedAt: int, expiresAt: int, metadata: Option<Bytes>)

  datatype Config = Config(maxEntries: nat, foundTtl: int, notFoundTtl: int, lower: JsString -> JsString)

  /** `Math.max(32, Math.floor(options.maxEntries))`. */
  function Capacity(requested: int): (n: nat)
    ensures n >= 32 && n >= requested && (n == 32 || n == requested)
  {
    if requested < 32 then 32 else requested
  }

  // ---------- The map, in insertion order ----------

  function IndexOf(es: seq<Entry>, hash: JsString): (i: Option<nat>)
    ensures i.Some? ==> i.value < |es| && es[i.value].hash == hash
    ensures i.None? <==> forall k :: 0 <= k < |es| ==> es[k].hash != hash
  {
    if es == [] then None
    else if es[|es| - 1].hash == hash then Some(|es| - 1)
    else
      var i := IndexOf(es[..|es| - 1], hash);
      assert forall k :: 0 <= k < |es| - 1 ==> es[k] == es[..|es| - 1][k];
      i
  }

  /** `Map.set`: an existing key keeps its place. */
  function SetEntry(es: seq<Entry>, e: Entry): seq<Entry> {
    var i := IndexOf(es, e.hash);
    if i.Some? then es[i.value := e] else es + [e]
  }

  /** `Map.delete`. */
  function Without(es: seq<Entry>, hash: JsString): (r: seq<Entry>)
    ensures forall e :: e in r <==> e in es && e.hash != hash
  {
    if es == [] then []
    else
      var last := es[|es| - 1];
      assert es == es[..|es| - 1] + [last];
      Without(es[..|es| - 1], hash) + if last.hash == hash then [] else [last]
  }

  ghost predicate Keyed(es: seq<Entry>) {
    forall i, j :: 0 <= i < j < |es| ==> es[i].hash != es[j].hash
  }

  // ---------- Pruning ----------

  function Live(es: seq<Entry>, now: int): (r: seq<Entry>)
    ensures forall e :: e in r <==> e in es && e.expiresAt > now
  {
    if es == [] then []
    else
      var last := es[|es| - 1];
      assert es == es[..|es| - 1] + [last];
      Live(es[..|es| - 1], now) + if last.expiresAt > now then [last] else []
  }

  lemma LiveStarts(now: int)
    ensures Live([], now) == []
  {
  }

  lemma LiveStep(es: seq<Entry>, i: nat, now: int)
    requires i < |es|
    ensures Live(es[..i + 1], now) == if es[i].expiresAt > now then Live(es[..i], now) + [es[i]] else Live(es[..i], now)
  {
    assert es[..i + 1][..i] == es[..i];
    assert Live(es[..i], now) + [] == Live(es[..i], now);
  }

  function InsertByAge(e: Entry, sorted: seq<Entry>): (r: seq<Entry>)
    ensures multiset(r) == multiset(sorted) + multiset{e}
  {
    if sorted == [] || e.cachedAt <= sorted[0].cachedAt then [e] + sorted
    else
      assert sorted == [sorted[0]] + sorted[1..];
      [sorted[0]] + InsertByAge(e, sorted[1..])
  }

  /** `sort((a, b) => a.cachedAt - b.cachedAt)`, which is stable. */
  function ByAge(es: seq<Entry>): (r: seq<Entry>)
    ensures multiset(r) == multiset(es)
  {
    if es == [] then []
    else
      assert es == [es[0]] + es[1..];
      InsertByAge(es[0], ByAge(es[1..]))
  }

  function RemoveAll(es: seq<Entry>, victims: seq<Entry>): (r: seq<Entry>) {
    if victims == [] then es
    else Without(RemoveAll(es, victims[..|victims| - 1]), victims[|victims| - 1].hash)
  }

  function SizeOfByAge(es: seq<Entry>): (n: nat)
    ensures n == |es| == |ByAge(es)|
  {
    assert |es| == |multiset(es)| == |multiset(ByAge(es))| == |ByAge(es)|;
    |es|
  }

  /** `_prune`: the expired go, then the oldest until the rest fits. */
  function Pruned(es: seq<Entry>, now: int, max: nat): seq<Entry> {
    var live := Live(es, now);
    if SizeOfByAge(live) <= max then live else RemoveAll(live, ByAge(live)[..|live| - max])
  }

  predicate Aged(es: seq<Entry>) {
    forall i, j :: 0 <= i < j < |es| ==> es[i].cachedAt <= es[j].cachedAt
  }

  lemma {:induction false} InsertAged(e: Entry, sorted: seq<Entry>)
    requires Aged(sorted)
    ensures Aged(InsertByAge(e, sorted))
    decreases |sorted|
  {
    if sorted != [] && e.cachedAt > sorted[0].cachedAt {
      InsertAged(e, sorted[1..]);
      var r := InsertByAge(e, sorted[1..]);
      forall j | 0 <= j < |r|
        ensures sorted[0].cachedAt <= r[j].cachedAt
      {
        assert r[j] in multiset(r);
        assert r[j] == e || r[j] in sorted[1..];
      }
    }
  }

  lemma {:induction false} ByAgeIsAged(es: seq<Entry>)
    ensures Aged(ByAge(es))
    decreases |es|
  {
    if es != [] {
      ByAgeIsAged(es[1..]);
      InsertAged(es[0], ByAge(es[1..]));
    }
  }

  lemma {:induction false} WithoutKeeps(es: seq<Entry>, hash: JsString)
    requires Keyed(es)
    ensures Keyed(Without(es, hash))
    ensures |Without(es, hash)| == if IndexOf(es, hash).Some? then |es| - 1 else |es|
    decreases |es|
  {
    if es != [] {
      var front, last := es[..|es| - 1], es[|es| - 1];
      WithoutKeeps(front, hash);
      forall i | 0 <= i < |Without(front, hash)|
        ensures Without(front, hash)[i].hash != last.hash
      {
        assert Without(front, hash)[i] in front;
      }
    }
  }

  lemma {:induction false} LiveKeeps(es: seq<Entry>, now: int)
    requires Keyed(es)
    ensures Keyed(Live(es, now))
    decreases |es|
  {
    if es != [] {
      var front, last := es[..|es| - 1], es[|es| - 1];
      LiveKeeps(front, now);
      forall i | 0 <= i < |Live(front, now)|
        ensures Live(front, now)[i].hash != last.hash
      {
        assert Live(front, now)[i] in front;
      }
    }
  }

  /** Removing distinct members removes exactly those. */
  lemma {:induction false} RemoveAllKeeps(es: seq<Entry>, victims: seq<Entry>)
    requires Keyed(es) && Keyed(victims) && forall v :: v in victims ==> v in es
    ensures Keyed(RemoveAll(es, victims)) && |RemoveAll(es, victims)| == |es| - |victims|
    ensures forall e :: e in RemoveAll(es, victims) <==> e in es && e !in victims
    decreases |victims|
  {
    if victims != [] {
      var front, last := victims[..|victims| - 1], victims[|victims| - 1];
      assert victims == front + [last];
      RemoveAllKeeps(es, front);
      var rest := RemoveAll(es, front);
      assert last in rest;
      WithoutKeeps(rest, last.hash);
      assert IndexOf(rest, last.hash).Some?;
      SameHashSameEntry(es, last);
    }
  }

  lemma SameHashSameEntry(es: seq<Entry>, e: Entry)
    requires Keyed(es) && e in es
    ensures forall f :: f in es && f.hash == e.hash ==> f == e
  {
  }

  lemma KeyedShuffle(es: seq<Entry>, r: seq<Entry>)
    requires Keyed(es) && multiset(r) == multiset(es)
    ensures Keyed(r)
  {
    forall i, j | 0 <= i < j < |r|
      ensures r[i].hash != r[j].hash
    {
      if r[i].hash == r[j].hash {
        assert r[i] in multiset(es) && r[j] in multiset(es);
        SameHashSameEntry(es, r[i]);
        TwiceInOrder(r, i, j);
        OnceWhenKeyed(es, r[i]);
      }
    }
  }

  lemma TwiceInOrder(r: seq<Entry>, i: nat, j: nat)
    requires i < j < |r| && r[i] == r[j]
    ensures multiset(r)[r[i]] >= 2
  {
    assert r == r[..j] + [r[j]] + r[j + 1..];
    assert r[i] in multiset(r[..j]);
  }

  lemma {:induction false} OnceWhenKeyed(es: seq<Entry>, e: Entry)
    requires Keyed(es)
    ensures multiset(es)[e] <= 1
    decreases |es|
  {
    if es != [] {
      var front := es[..|es| - 1];
      assert es == front + [es[|es| - 1]];
      OnceWhenKeyed(front, e);
      if e == es[|es| - 1] {
        assert e !in front;
      }
    }
  }

  /** The `n` oldest of distinct entries: distinct, all of them present, and none newer than one of the others. */
  lemma Victims(live: seq<Entry>, n: nat)
    requires Keyed(live) && n <= SizeOfByAge(live)
    ensures var victims := ByAge(live)[..n];
      && Keyed(victims) && (forall v :: v in victims ==> v in live)
      && (forall v, k :: v in victims && k in live && k !in victims ==> v.cachedAt <= k.cachedAt)
  {
    hide ByAge;
    var sorted := ByAge(live);
    ByAgeIsAged(live);
    KeyedShuffle(live, sorted);
    forall v | v in sorted[..n]
      ensures v in live
    {
      assert v in multiset(sorted);
    }
    VictimsAreOldest(live, sorted, n);
  }

  /**
   * Pruning keeps only live entries, as they were, at most `max` of them; it drops a live entry only for want of room, and
   * then none that was newer than one it keeps.
   */
  lemma PruningKeepsTheNewest(es: seq<Entry>, now: int, max: nat)
    requires Keyed(es)
    ensures var r := Pruned(es, now, max);
      && Keyed(r) && |r| <= max && (forall e :: e in r ==> e in es && e.expiresAt > now)
      && (forall e, k :: e in es && e.expiresAt > now && e !in r && k in r ==> e.cachedAt <= k.cachedAt)
      && (forall e :: e in es && e.expiresAt > now && e !in r ==> |r| == max)
  {
    hide Live, ByAge, RemoveAll, Keyed;
    var live := Live(es, now);
    LiveKeeps(es, now);
    if |live| > max {
      var n := |live| - max;
      assert SizeOfByAge(live) == |live|;
      Victims(live, n);
      RemoveAllKeeps(live, ByAge(live)[..n]);
    }
  }

  lemma VictimsAreOldest(live: seq<Entry>, sorted: seq<Entry>, n: nat)
    requires n <= |sorted| && Aged(sorted) && multiset(sorted) == multiset(live)
    ensures forall v, k :: v in sorted[..n] && k in live && k !in sorted[..n] ==> v.cachedAt <= k.cachedAt
  {
    forall v, k | v in sorted[..n] && k in live && k !in sorted[..n]
      ensures v.cachedAt <= k.cachedAt
    {
      assert k in multiset(sorted);
      var i :| 0 <= i < n && sorted[i] == v;
      assert sorted == sorted[..n] + sorted[n..];
      var j :| 0 <= j < |sorted[n..]| && sorted[n..][j] == k;
      assert sorted[n + j] == k;
    }
  }

  // ---------- Operations ----------

  /** `_toEntry`; nothing for a result that must not be cached. */
  function ToEntry(cfg: Config, q: Result, now: int): Option<Entry> {
    var hash := cfg.lower(q.hash);
    if !PackageSeal.IsHash(hash) || q.status == OtherStatus then None
    else
      var ttl := if q.status == KnownMalicious then cfg.foundTtl else cfg.notFoundTtl;
      Some(Entry(hash, q.status, now, now + ttl, if q.status == KnownMalicious then Some(q.metadata) else None))
  }

  /** All results of a batch, or nothing as soon as one must not be cached. */
  function ToEntries(cfg: Config, results: seq<Result>, now: int): Option<seq<Entry>> {
    if results == [] then Some([])
    else
      var front, last := ToEntries(cfg, results[..|results| - 1], now), ToEntry(cfg, results[|results| - 1], now);
      if front.None? || last.None? then None else Some(front.value + [last.value])
  }

  function SetAll(es: seq<Entry>, added: seq<Entry>): seq<Entry> {
    if added == [] then es else SetEntry(SetAll(es, added[..|added| - 1]), added[|added| - 1])
  }

  /** The cache and, as history, every entry ever stored, oldest first. */
  datatype State = State(entries: seq<Entry>, history: seq<Entry>)

  datatype Op =
    | Put(q: Result, now: int)
    | PutMany(results: seq<Result>, now: int)
    | Get(hash: JsString, now: int)

  function Store(cfg: Config, s: State, added: seq<Entry>, now: int): State {
    State(Pruned(SetAll(s.entries, added), now, cfg.maxEntries), s.history + added)
  }

  function PutNext(cfg: Config, s: State, q: Result, now: int): State {
    var e := ToEntry(cfg, q, now);
    if e.None? then s else Store(cfg, s, [e.value], now)
  }

  function PutManyNext(cfg: Config, s: State, results: seq<Result>, now: int): State {
    var added := ToEntries(cfg, results, now);
    if results == [] || added.None? then s else Store(cfg, s, added.value, now)
  }

  function Find(es: seq<Entry>, hash: JsString): Option<Entry> {
    var i := IndexOf(es, hash);
    if i.Some? then Some(es[i.value]) else None
  }

  /** `get`: an expired entry is dropped on the way. */
  function GetNext(cfg: Config, s: State, hash: JsString, now: int): (State, Option<Entry>) {
    var normalized := cfg.lower(hash);
    var e := if PackageSeal.IsHash(normalized) then Find(s.entries, normalized) else None;
    if e.None? then (s, None)
    else if e.value.expiresAt <= now then (s.(entries := Without(s.entries, normalized)), None)
    else (s, e)
  }

  function Next(cfg: Config, s: State, op: Op): State {
    match op
    case Put(q, now) => PutNext(cfg, s, q, now)
    case PutMany(results, now) => PutManyNext(cfg, s, results, now)
    case Get(hash, now) => GetNext(cfg, s, hash, now).0
  }

  function After(cfg: Config, s: State, ops: seq<Op>): State
    decreases |ops|
  {
    if ops == [] then s else After(cfg, Next(cfg, s, ops[0]), ops[1..])
  }

  // ---------- The cache agrees with its history ----------

  /** What was stored last for `hash`. */
  function LastStored(history: seq<Entry>, hash: JsString): Option<Entry> {
    if history == [] then None
    else if history[|history| - 1].hash == hash then Some(history[|history| - 1])
    else LastStored(history[..|history| - 1], hash)
  }

  ghost predicate Agrees(s: State) {
    Keyed(s.entries) && forall e :: e in s.entries ==> LastStored(s.history, e.hash) == Some(e)
  }

  lemma SetEntryAgrees(es: seq<Entry>, history: seq<Entry>, e: Entry)
    requires Agrees(State(es, history))
    ensures Agrees(State(SetEntry(es, e), history + [e]))
  {
    var r := SetEntry(es, e);
    assert (history + [e])[..|history|] == history;
    forall x | x in r
      ensures LastStored(history + [e], x.hash) == Some(x)
    {
      if x != e {
        assert x in es;
        var i :| 0 <= i < |es| && es[i] == x;
      }
    }
  }

  lemma {:induction false} SetAllAgrees(es: seq<Entry>, history: seq<Entry>, added: seq<Entry>)
    requires Agrees(State(es, history))
    ensures Agrees(State(SetAll(es, added), history + added))
    decreases |added|
  {
    hide SetEntry, Agrees;
    if added == [] {
      assert history + added == history;
    } else {
      var front, last := added[..|added| - 1], added[|added| - 1];
      SetAllAgrees(es, history, front);
      SetEntryAgrees(SetAll(es, front), history + front, last);
      assert history + added == history + front + [last];
    }
  }

  lemma StoreAgrees(cfg: Config, s: State, added: seq<Entry>, now: int)
    requires Agrees(s)
    ensures Agrees(Store(cfg, s, added, now)) && |Store(cfg, s, added, now).entries| <= cfg.maxEntries
  {
    hide Pruned, SetAll, LastStored;
    SetAllAgrees(s.entries, s.history, added);
    PruningKeepsTheNewest(SetAll(s.entries, added), now, cfg.maxEntries);
  }

  lemma OpAgrees(cfg: Config, s: State, op: Op)
    requires Agrees(s)
    ensures Agrees(Next(cfg, s, op)) && s.history <= Next(cfg, s, op).history
  {
    hide Store, ToEntries, ToEntry, Agrees;
    match op
    case Put(q, now) =>
      var e := ToEntry(cfg, q, now);
      if e.Some? {
        StoreAgrees(cfg, s, [e.value], now);
        StoreRecords(cfg, s, [e.value], now);
      }
    case PutMany(results, now) =>
      var added := ToEntries(cfg, results, now);
      if added.Some? {
        StoreAgrees(cfg, s, added.value, now);
        StoreRecords(cfg, s, added.value, now);
      }
    case Get(hash, now) => WithoutAgrees(s, cfg.lower(hash));
  }

  lemma StoreRecords(cfg: Config, s: State, added: seq<Entry>, now: int)
    ensures s.history <= Store(cfg, s, added, now).history == s.history + added
  {
  }

  lemma WithoutAgrees(s: State, hash: JsString)
    requires Agrees(s)
    ensures Agrees(s.(entries := Without(s.entries, hash)))
  {
    WithoutKeeps(s.entries, hash);
  }

  lemma {:induction false} RunAgrees(cfg: Config, s: State, ops: seq<Op>)
    requires Agrees(s)
    ensures Agrees(After(cfg, s, ops))
    decreases |ops|
  {
    hide Agrees, Next;
    if ops != [] {
      OpAgrees(cfg, s, ops[0]);
      RunAgrees(cfg, Next(cfg, s, ops[0]), ops[1..]);
    }
  }

  predicate ValidEntry(e: Entry) {
    PackageSeal.IsHash(e.hash) && e.status != OtherStatus && e.expiresAt >= e.cachedAt
  }

  /** `load`: the entries of the cache file, or none when one of them is invalid or the file is not a cache. */
  function Load(cfg: Config, document: Option<seq<Entry>>, now: int): State {
    if document.None? || exists e :: e in document.value && !ValidEntry(e) then State([], [])
    else Store(cfg, State([], []), document.value, now)
  }

  lemma LoadAgrees(cfg: Config, document: Option<seq<Entry>>, now: int)
    ensures Agrees(Load(cfg, document, now))
  {
    hide Store;
    assert Agrees(State([], []));
    if document.Some? {
      StoreAgrees(cfg, State([], []), document.value, now);
    }
  }

  /**
   * After loading any file and any run, a lookup gives nothing or exactly what was stored last for that hash, and never
   * past its expiry.
   */
  lemma LookupIsLastStored(cfg: Config, document: Option<seq<Entry>>, loadedAt: int, ops: seq<Op>, hash: JsString, now: int)
    ensures var s := After(cfg, Load(cfg, document, loadedAt), ops);
      var found := GetNext(cfg, s, hash, now).1;
      found.Some? ==> found == LastStored(s.history, cfg.lower(hash)) && found.value.expiresAt > now
  {
    hide After, Load;
    LoadAgrees(cfg, document, loadedAt);
    RunAgrees(cfg, Load(cfg, document, loadedAt), ops);
    var s := After(cfg, Load(cfg, document, loadedAt), ops);
    var found := GetNext(cfg, s, hash, now).1;
    if found.Some? {
      assert found.value in s.entries;
    }
  }

  /** The entries that a successful `put` or `putMany` stores. */
  function Added(cfg: Config, op: Op): Option<seq<Entry>> {
    match op
    case Put(q, now) => var e := ToEntry(cfg, q, now); if e.None? then None else Some([e.value])
    case PutMany(results, now) => if results == [] then None else ToEntries(cfg, results, now)
    case Get(_, _) => None
  }

  /** What a successful store, of one or of many, drops is expired, or no newer than everything that stays; the bound is kept. */
  lemma StoreDropsTheOldest(cfg: Config, document: Option<seq<Entry>>, loadedAt: int, ops: seq<Op>, op: Op)
    requires Added(cfg, op).Some?
    ensures var s := After(cfg, Load(cfg, document, loadedAt), ops);
      var before, r := SetAll(s.entries, Added(cfg, op).value), Next(cfg, s, op);
      && |r.entries| <= cfg.maxEntries
      && (forall e :: e in r.entries ==> e in before && e.expiresAt > op.now)
      && (forall e, k :: e in before && e.expiresAt > op.now && e !in r.entries && k in r.entries ==> e.cachedAt <= k.cachedAt)
      && (forall e :: e in before && e.expiresAt > op.now && e !in r.entries ==> |r.entries| == cfg.maxEntries)
  {
    hide After, Load, SetAll, Pruned, ToEntry, ToEntries, LastStored;
    LoadAgrees(cfg, document, loadedAt);
    RunAgrees(cfg, Load(cfg, document, loadedAt), ops);
    var s := After(cfg, Load(cfg, document, loadedAt), ops);
    var added := Added(cfg, op).value;
    SetAllAgrees(s.entries, s.history, added);
    PruningKeepsTheNewest(SetAll(s.entries, added), op.now, cfg.maxEntries);
  }

  // ---------- What was just stored is found ----------

  /** A result that may be cached: a SHA-256 sum with a known verdict. */
  predicate Cacheable(cfg: Config, q: Result) {
    PackageSeal.IsSum(cfg.lower(q.hash)) && q.status != OtherStatus
  }

  /** The entry a cacheable result is kept as; only a hit keeps its metadata, and hits and misses live differently long. */
  function Kept(cfg: Config, q: Result, now: int): Entry {
    if q.status == KnownMalicious then Entry(cfg.lower(q.hash), q.status, now, now + cfg.foundTtl, Some(q.metadata))
    else Entry(cfg.lower(q.hash), q.status, now, now + cfg.notFoundTtl, None)
  }

  lemma {:induction false} LastStays(x: Entry, sorted: seq<Entry>)
    requires sorted != [] && x.cachedAt <= sorted[|sorted| - 1].cachedAt
    ensures |InsertByAge(x, sorted)| == |sorted| + 1 && InsertByAge(x, sorted)[|sorted|] == sorted[|sorted| - 1]
    decreases |sorted|
  {
    if x.cachedAt > sorted[0].cachedAt {
      LastStays(x, sorted[1..]);
    }
  }

  lemma ByAgeStep(es: seq<Entry>)
    ensures es != [] ==> ByAge(es) == InsertByAge(es[0], ByAge(es[1..]))
    ensures es == [] ==> ByAge(es) == []
  {
  }

  lemma InsertFirst(e: Entry)
    ensures InsertByAge(e, []) == [e]
  {
  }

  lemma {:induction false} NewestIsLast(es: seq<Entry>, e: Entry)
    requires forall x :: x in es ==> x.cachedAt <= e.cachedAt
    ensures SizeOfByAge(es + [e]) == |es| + 1 && ByAge(es + [e])[|es|] == e
    decreases |es|
  {
    hide ByAge, InsertByAge;
    var all := es + [e];
    ByAgeStep(all);
    if es == [] {
      assert all[1..] == [];
      ByAgeStep([]);
      InsertFirst(e);
    } else {
      assert all[1..] == es[1..] + [e];
      NewestIsLast(es[1..], e);
      assert es[0] in es;
      LastStays(es[0], ByAge(all[1..]));
    }
  }

  lemma LiveSnoc(es: seq<Entry>, e: Entry, now: int)
    ensures Live(es + [e], now) == if e.expiresAt > now then Live(es, now) + [e] else Live(es, now)
  {
    assert (es + [e])[..|es| + 1] == es + [e] && (es + [e])[..|es|] == es;
    LiveStep(es + [e], |es|, now);
  }

  lemma {:induction false} LiveIsShorter(es: seq<Entry>, now: int)
    ensures |Live(es, now)| <= |es|
  {
    if es != [] {
      LiveIsShorter(es[..|es| - 1], now);
    }
  }

  lemma SetKeeps(es: seq<Entry>, e: Entry)
    requires Keyed(es)
    ensures Keyed(SetEntry(es, e)) && e in SetEntry(es, e) && Find(SetEntry(es, e), e.hash) == Some(e)
  {
    var r := SetEntry(es, e);
    var i := IndexOf(es, e.hash);
    var k := if i.Some? then i.value else |es|;
    assert r[k] == e;
    var j := IndexOf(r, e.hash);
    assert j.Some? && r[j.value].hash == r[k].hash;
  }

  lemma PrunedWithin(es: seq<Entry>, now: int, max: nat)
    requires |es| <= max
    ensures Pruned(es, now, max) == Live(es, now)
  {
    LiveIsShorter(es, now);
    hide ByAge, RemoveAll, Live;
  }

  /** A new entry that no older clock reading followed is not among those that have to go. */
  lemma AppendedStays(es: seq<Entry>, e: Entry, now: int, max: nat)
    requires Keyed(es + [e]) && |es| <= max && max > 0 && e.expiresAt > now && forall x :: x in es ==> x.cachedAt <= e.cachedAt
    ensures e in Pruned(es + [e], now, max)
  {
    hide ByAge, RemoveAll, Live;
    var live := Live(es + [e], now);
    LiveSnoc(es, e, now);
    LiveIsShorter(es, now);
    LiveKeeps(es + [e], now);
    NewestIsLast(Live(es, now), e);
    LastIsNoVictim(live, e, |live| - 1);
  }

  /** A store into a cache within its bound keeps the new entry, when no clock reading before was later. */
  lemma NewestStays(es: seq<Entry>, e: Entry, now: int, max: nat)
    requires Keyed(es) && |es| <= max && max > 0 && e.expiresAt > now && forall x :: x in es ==> x.cachedAt <= e.cachedAt
    ensures e in Pruned(SetEntry(es, e), now, max)
  {
    hide Pruned, ByAge, Live, IndexOf, Find;
    SetKeeps(es, e);
    if IndexOf(es, e.hash).None? {
      AppendedStays(es, e, now, max);
    } else {
      PrunedWithin(SetEntry(es, e), now, max);
    }
  }

  /** The newest of distinct entries outlives the removal of all the others but as many as fit. */
  lemma LastIsNoVictim(live: seq<Entry>, e: Entry, n: nat)
    requires e in live && |live| == n + 1 && |ByAge(live)| == n + 1 && ByAge(live)[n] == e
    ensures forall m: nat :: m <= n && Keyed(live) ==> e in RemoveAll(live, ByAge(live)[..m])
  {
    hide ByAge, RemoveAll;
    forall m: nat | m <= n && Keyed(live)
      ensures e in RemoveAll(live, ByAge(live)[..m])
    {
      Victims(live, m);
      KeyedShuffle(live, ByAge(live));
      RemoveAllKeeps(live, ByAge(live)[..m]);
      assert forall i :: 0 <= i < m ==> ByAge(live)[i].hash != e.hash;
    }
  }

  /** A cache never outgrows its bound. */
  ghost predicate Bounded(cfg: Config, s: State) {
    Agrees(s) && |s.entries| <= cfg.maxEntries
  }

  lemma {:induction false} RunIsBounded(cfg: Config, s: State, ops: seq<Op>)
    requires Bounded(cfg, s)
    ensures Bounded(cfg, After(cfg, s, ops))
    decreases |ops|
  {
    hide Next, Agrees;
    if ops != [] {
      OpIsBounded(cfg, s, ops[0]);
      RunIsBounded(cfg, Next(cfg, s, ops[0]), ops[1..]);
    }
  }

  lemma OpIsBounded(cfg: Config, s: State, op: Op)
    requires Bounded(cfg, s)
    ensures Bounded(cfg, Next(cfg, s, op))
  {
    hide Store, ToEntries, ToEntry, LastStored;
    OpAgrees(cfg, s, op);
    match op
    case Put(q, now) =>
      var e := ToEntry(cfg, q, now);
      if e.Some? {
        StoreAgrees(cfg, s, [e.value], now);
      }
    case PutMany(results, now) =>
      var added := ToEntries(cfg, results, now);
      if added.Some? {
        StoreAgrees(cfg, s, added.value, now);
      }
    case Get(hash, now) => WithoutKeeps(s.entries, cfg.lower(hash));
  }

  lemma LoadIsBounded(cfg: Config, document: Option<seq<Entry>>, now: int)
    ensures Bounded(cfg, Load(cfg, document, now))
  {
    hide Store, LastStored;
    assert Agrees(State([], []));
    if document.Some? {
      StoreAgrees(cfg, State([], []), document.value, now);
    }
  }

  /** A lookup gives an entry exactly when the cache holds it for that hash and it has not expired. */
  lemma LookupIff(cfg: Config, s: State, hash: JsString, now: int, e: Entry)
    requires Keyed(s.entries)
    ensures GetNext(cfg, s, hash, now).1 == Some(e) <==>
      e in s.entries && e.hash == cfg.lower(hash) && PackageSeal.IsSum(e.hash) && now < e.expiresAt
  {
    PackageSeal.IsHashIff(cfg.lower(hash));
    hide PackageSeal.IsHash, PackageSeal.IsSum, Without;
  }

  lemma KeptIs(cfg: Config, q: Result, now: int)
    ensures Cacheable(cfg, q) ==> ToEntry(cfg, q, now) == Some(Kept(cfg, q, now))
    ensures !Cacheable(cfg, q) ==> ToEntry(cfg, q, now) == None
  {
    PackageSeal.IsHashIff(cfg.lower(q.hash));
    hide PackageSeal.IsHash, PackageSeal.IsSum;
  }

  /**
   * After loading any file and any run, a cacheable result that is stored is found until its own expiry and not after, while
   * nothing else happens; a result that is not cacheable changes nothing.
   */
  lemma PutIsFound(cfg: Config, document: Option<seq<Entry>>, loadedAt: int, ops: seq<Op>, q: Result, now: int, later: int)
    requires cfg.maxEntries > 0
    requires forall x :: x in After(cfg, Load(cfg, document, loadedAt), ops).entries ==> x.cachedAt <= now
    ensures var s := After(cfg, Load(cfg, document, loadedAt), ops);
      var r, e := PutNext(cfg, s, q, now), Kept(cfg, q, now);
      && (!Cacheable(cfg, q) ==> r == s)
      && (Cacheable(cfg, q) && now < e.expiresAt ==>
            GetNext(cfg, r, q.hash, later).1 == if later < e.expiresAt then Some(e) else None)
  {
    var s := After(cfg, Load(cfg, document, loadedAt), ops);
    LoadIsBounded(cfg, document, loadedAt);
    RunIsBounded(cfg, Load(cfg, document, loadedAt), ops);
    KeptIs(cfg, q, now);
    hide After, Load, LastStored, Pruned, ToEntry, GetNext, SetEntry, PackageSeal.IsSum;
    var e := Kept(cfg, q, now);
    if Cacheable(cfg, q) && now < e.expiresAt {
      var r := PutNext(cfg, s, q, now);
      StoreAgrees(cfg, s, [e], now);
      OneSet(s.entries, e);
      NewestStays(s.entries, e, now, cfg.maxEntries);
      LookupIff(cfg, r, q.hash, later, e);
      if GetNext(cfg, r, q.hash, later).1.Some? {
        var f := GetNext(cfg, r, q.hash, later).1.value;
        LookupIff(cfg, r, q.hash, later, f);
        SameHashSameEntry(r.entries, e);
      }
    }
  }

  lemma OneSet(es: seq<Entry>, e: Entry)
    ensures SetAll(es, [e]) == SetEntry(es, e)
  {
    assert [e][..0] == [] && SetAll(es, []) == es;
  }

  // ---------- The cache object ----------

  class Cache {
    const cfg: Config
    var entries: seq<Entry>
    ghost var history: seq<Entry>

    ghost function View(): State
      reads this
    {
      State(entries, history)
    }

    constructor (maxEntries: int, foundTtl: int, notFoundTtl: int, lower: JsString -> JsString)
      ensures View() == State([], [])
      ensures cfg == Config(Capacity(maxEntries), foundTtl, notFoundTtl, lower)
    {
      cfg := Config(Capacity(maxEntries), foundTtl, notFoundTtl, lower);
      entries, history := [], [];
    }

    /** The first loop of `_prune`. */
    method DropExpired(now: int)
      modifies this`entries
      ensures entries == Live(old(entries), now)
    {
      hide Live;
      var all := entries;
      var live: seq<Entry> := [];
      LiveStarts(now);
      for i := 0 to |all|
        invariant live == Live(all[..i], now) && entries == all
      {
        LiveStep(all, i, now);
        if all[i].expiresAt > now {
          live := live + [all[i]];
        }
      }
      assert all[..|all|] == all;
      entries := live;
    }

    method Prune(now: int)
      modifies this`entries
      ensures entries == Pruned(old(entries), now, cfg.maxEntries)
    {
      hide Live, ByAge, Without;
      DropExpired(now);
      ghost var live := entries;
      assert SizeOfByAge(live) == |live|;
      if |entries| <= cfg.maxEntries {
        return;
      }
      var sorted := ByAge(entries);
      var remove := |entries| - cfg.maxEntries;
      for i := 0 to remove
        invariant entries == RemoveAll(live, sorted[..i])
      {
        assert sorted[..i + 1][..i] == sorted[..i];
        entries := Without(entries, sorted[i].hash);
      }
    }

    /** The first use reads the cache file; one bad entry discards them all. */
    method LoadFile(document: Option<seq<Entry>>, now: int) returns (corrupt: bool)
      requires View() == State([], [])
      modifies this
      ensures View() == Load(cfg, document, now)
      ensures corrupt == (document.None? || exists e :: e in document.value && !ValidEntry(e))
    {
      hide Pruned, ValidEntry, SetEntry;
      if document.None? {
        return true;
      }
      var stored := document.value;
      for i := 0 to |stored|
        invariant entries == SetAll([], stored[..i]) && history == []
        invariant forall j :: 0 <= j < i ==> ValidEntry(stored[j])
      {
        assert stored[..i + 1][..i] == stored[..i];
        if !ValidEntry(stored[i]) {
          assert stored[i] in stored;
          entries := [];
          return true;
        }
        entries := SetEntry(entries, stored[i]);
      }
      assert stored[..|stored|] == stored && [] + stored == stored;
      history := stored;
      Prune(now);
      return false;
    }

    method Put(q: Result, now: int) returns (ok: bool)
      modifies this
      ensures View() == PutNext(cfg, old(View()), q, now) && ok == ToEntry(cfg, q, now).Some?
    {
      hide Pruned;
      var entry := ToEntry(cfg, q, now);
      if entry.None? {
        return false;
      }
      ghost var es := entries;
      entries := SetEntry(entries, entry.value);
      assert SetAll(es, [entry.value]) == SetEntry(SetAll(es, []), entry.value) by {
        assert [entry.value][..0] == [];
      }
      history := history + [entry.value];
      Prune(now);
      return true;
    }

    method PutMany(results: seq<Result>, now: int) returns (ok: bool, added: nat)
      modifies this
      ensures View() == PutManyNext(cfg, old(View()), results, now)
      ensures ok == ToEntries(cfg, results, now).Some? && added == if ok then |results| else 0
    {
      hide Pruned, ToEntry, SetEntry;
      if |results| < 1 {
        return true, 0;
      }
      var pending: seq<Entry> := [];
      for i := 0 to |results|
        invariant ToEntries(cfg, results[..i], now) == Some(pending) && |pending| == i
        invariant entries == old(entries) && history == old(history)
      {
        assert results[..i + 1][..i] == results[..i];
        var entry := ToEntry(cfg, results[i], now);
        if entry.None? {
          NeverAgain(cfg, results, i + 1, now);
          return false, 0;
        }
        pending := pending + [entry.value];
      }
      assert results[..|results|] == results;
      for i := 0 to |pending|
        invariant entries == SetAll(old(entries), pending[..i]) && history == old(history)
      {
        assert pending[..i + 1][..i] == pending[..i];
        entries := SetEntry(entries, pending[i]);
      }
      assert pending[..|pending|] == pending;
      history := history + pending;
      Prune(now);
      return true, |pending|;
    }

    method Get(hash: JsString, now: int) returns (found: Option<Entry>)
      modifies this`entries
      ensures (View(), found) == GetNext(cfg, old(View()), hash, now)
    {
      var normalized := cfg.lower(hash);
      if !PackageSeal.IsHash(normalized) {
        return None;
      }
      var entry := Find(entries, normalized);
      if entry.None? {
        return None;
      }
      if entry.value.expiresAt <= now {
        entries := Without(entries, normalized);
        return None;
      }
      return entry;
    }
  }

  lemma {:induction false} NeverAgain(cfg: Config, results: seq<Result>, n: nat, now: int)
    requires n <= |results| && ToEntries(cfg, results[..n], now).None?
    ensures ToEntries(cfg, results, now).None?
    decreases |results| - n
  {
    hide ToEntry;
    if n == |results| {
      assert results[..n] == results;
    } else {
      assert results[..n + 1][..n] == results[..n];
      NeverAgain(cfg, results, n + 1, now);
    }
  }
}
