/** Several engines over disjoint shards presented as one
    (internal/engine/engine_composite.go). */
module Composite {
  import opened Matching
  import opened Automaton
  import opened OutputTables
  import opened Engines
  import opened IndexMaps
  import opened WordOrder

  // ----- dictionaries -----

  ghost predicate InSome(dicts: seq<set<Word>>, k: Word) {
    exists i :: 0 <= i < |dicts| && k in dicts[i]
  }

  /** The shards split `dict`: they cover it and share no keyword. */
  ghost predicate Splits(dicts: seq<set<Word>>, dict: set<Word>) {
    && (forall k :: k in dict <==> InSome(dicts, k))
    && (forall i, j, k :: 0 <= i < j < |dicts| && k in dicts[i] ==> k !in dicts[j])
  }

  lemma ShardOf(dicts: seq<set<Word>>, dict: set<Word>, k: Word) returns (i: nat)
    requires Splits(dicts, dict) && k in dict
    ensures i < |dicts| && k in dicts[i]
    ensures forall j :: 0 <= j < |dicts| && k in dicts[j] ==> j == i
  {
    assert InSome(dicts, k);
    i :| 0 <= i < |dicts| && k in dicts[i];
  }

  // ----- sorting matches -----

  /** End ascending, then start ascending, then keyword. */
  function CompareMatch(a: Match, b: Match): int {
    if a.end != b.end then (if a.end < b.end then -1 else 1)
    else if a.start != b.start then (if a.start < b.start then -1 else 1)
    else CompareWords(a.keyword, b.keyword)
  }

  /** Neighbours are in comparison order. */
  ghost predicate Sorted(ms: seq<Match>) {
    forall i {:trigger InOrder(ms, i)} :: 0 < i < |ms| ==> InOrder(ms, i)
  }

  ghost predicate InOrder(ms: seq<Match>, i: int)
    requires 0 < i < |ms|
  {
    CompareMatch(ms[i - 1], ms[i]) <= 0
  }

  /** Any sort gives this; insertion keeps the proof small. */
  method SortMatches(ms: seq<Match>) returns (r: seq<Match>)
    ensures Sorted(r) && multiset(r) == multiset(ms)
  {
    r := [];
    for n := 0 to |ms|
      invariant Sorted(r) && multiset(r) == multiset(ms[..n])
    {
      assert ms[..n + 1] == ms[..n] + [ms[n]];
      r := Insert(r, ms[n]);
    }
    assert ms[..|ms|] == ms;
  }

  method Insert(ms: seq<Match>, m: Match) returns (r: seq<Match>)
    requires Sorted(ms)
    ensures Sorted(r) && multiset(r) == multiset(ms) + multiset{m}
  {
    hide Sorted, CompareWords;
    var i := |ms|;
    while i > 0 && CompareMatch(ms[i - 1], m) > 0
      invariant 0 <= i <= |ms|
      invariant i < |ms| ==> CompareMatch(m, ms[i]) < 0
    {
      CompareWordsTotal(ms[i - 1].keyword, m.keyword);
      i := i - 1;
    }
    r := ms[..i] + [m] + ms[i..];
    assert ms == ms[..i] + ms[i..];
    Inserted(ms, m, i);
  }

  lemma Inserted(ms: seq<Match>, m: Match, i: nat)
    requires Sorted(ms) && i <= |ms|
    requires i > 0 ==> CompareMatch(ms[i - 1], m) <= 0
    requires i < |ms| ==> CompareMatch(m, ms[i]) <= 0
    ensures Sorted(ms[..i] + [m] + ms[i..])
  {
    hide CompareMatch;
    var r := ms[..i] + [m] + ms[i..];
    forall j | 0 < j < |r| ensures InOrder(r, j) {
      if j < i { assert InOrder(ms, j); }
      if j > i + 1 { assert InOrder(ms, j - 1); }
    }
  }

  // ----- from sets of occurrences to the reference list -----

  ghost predicate Distinct(ms: seq<Match>) {
    forall i, j :: 0 <= i < j < |ms| ==> ms[i] != ms[j]
  }

  lemma {:induction false} DistinctCounts(ms: seq<Match>, m: Match)
    requires Distinct(ms)
    ensures multiset(ms)[m] <= 1
  {
    if ms != [] {
      var n := |ms| - 1;
      DistinctCounts(ms[..n], m);
      assert ms == ms[..n] + [ms[n]];
      assert ms[n] !in ms[..n];
    }
  }

  lemma CountsDistinct(ms: seq<Match>)
    requires forall m :: multiset(ms)[m] <= 1
    ensures Distinct(ms)
  {
    forall i, j | 0 <= i < j < |ms| ensures ms[i] != ms[j] {
      assert ms == ms[..j] + ms[j..] && ms[i] in ms[..j] && ms[j] in ms[j..];
      assert multiset(ms)[ms[j]] == multiset(ms[..j])[ms[j]] + multiset(ms[j..])[ms[j]];
    }
  }

  /** Spans of one text with equal offsets are equal, so a sorted list of distinct
      occurrences is in strict scan order. */
  lemma {:induction false} SortedStrict(dict: set<Word>, text: Word, ms: seq<Match>)
    requires Sorted(ms) && Distinct(ms) && forall m :: m in ms ==> IsOccurrence(dict, text, m)
    ensures Ordered(ms)
  {
    if ms != [] {
      var n := |ms| - 1;
      forall i | 0 < i < n ensures InOrder(ms[..n], i) { assert InOrder(ms, i); }
      SortedStrict(dict, text, ms[..n]);
      forall i, j | 0 <= i < j < |ms| ensures Before(ms[i], ms[j]) {
        if j < n { assert ms[..n][i] == ms[i] && ms[..n][j] == ms[j]; }
        else {
          assert ms[n - 1] in ms && ms[n] in ms;
          assert InOrder(ms, n);
          if i < n - 1 { assert Before(ms[..n][i], ms[..n][n - 1]); }
        }
      }
    }
  }

  /** Sorting any listing of exactly the occurrences, each once, gives the reference. */
  lemma SortedIsReference(dict: set<Word>, text: Word, ms: seq<Match>, sorted: seq<Match>)
    requires Distinct(ms) && forall m :: m in ms <==> IsOccurrence(dict, text, m)
    requires Sorted(sorted) && multiset(sorted) == multiset(ms)
    ensures sorted == AllMatches(dict, text)
  {
    forall m ensures multiset(sorted)[m] <= 1 { DistinctCounts(ms, m); }
    CountsDistinct(sorted);
    assert forall m :: m in sorted <==> m in multiset(sorted);
    assert forall m :: m in ms <==> m in multiset(ms);
    SortedStrict(dict, text, sorted);
    AllMatchesUnique(dict, text, sorted);
  }

  // ----- first occurrences -----

  /** The matches whose keyword has not matched earlier. */
  function FirstOf(ms: seq<Match>): seq<Match> {
    if ms == [] then []
    else
      var n := |ms| - 1;
      if ms[n].keyword in KeywordList(ms[..n]) then FirstOf(ms[..n]) else FirstOf(ms[..n]) + [ms[n]]
  }

  lemma {:induction false} KeywordListMembers(ms: seq<Match>, k: Word)
    ensures k in KeywordList(ms) <==> exists i :: 0 <= i < |ms| && ms[i].keyword == k
  {
    if ms != [] {
      KeywordListMembers(ms[1..], k);
      if i :| 0 <= i < |ms[1..]| && ms[1..][i].keyword == k { assert ms[i + 1].keyword == k; }
      if i :| 0 <= i < |ms| && ms[i].keyword == k && i > 0 { assert ms[1..][i - 1].keyword == k; }
    }
  }

  /** FirstOf is FindSet with positions. */
  lemma {:induction false} FirstOfKeywords(ms: seq<Match>)
    ensures KeywordList(FirstOf(ms)) == Dedup(KeywordList(ms))
  {
    if ms != [] {
      var n := |ms| - 1;
      assert ms == ms[..n] + [ms[n]];
      FirstOfKeywords(ms[..n]);
      KeywordListConcat(ms[..n], [ms[n]]);
      KeywordListConcat(FirstOf(ms[..n]), [ms[n]]);
      DedupSnoc(KeywordList(ms[..n]), ms[n].keyword);
    }
  }

  /** `m` is the earliest match of its keyword. */
  ghost predicate Earliest(ms: seq<Match>, m: Match) {
    m in ms && forall x :: x in ms && x.keyword == m.keyword ==> !Before(x, m)
  }

  lemma EarliestSnoc(front: seq<Match>, last: Match, m: Match)
    requires Ordered(front + [last])
    ensures Earliest(front + [last], m) <==> Earliest(front, m) || (m == last && last.keyword !in KeywordList(front))
  {
    var ms := front + [last];
    KeywordListMembers(front, last.keyword);
    forall x | x in front ensures Before(x, last) {
      var i :| 0 <= i < |front| && front[i] == x;
      assert Before(ms[i], ms[|front|]);
    }
    if last.keyword in KeywordList(front) {
      var i :| 0 <= i < |front| && front[i].keyword == last.keyword;
      assert front[i] in front;
    } else {
      assert forall x :: x in front ==> x.keyword != last.keyword;
    }
  }

  lemma {:induction false} FirstOfExact(ms: seq<Match>, m: Match)
    requires Ordered(ms)
    ensures m in FirstOf(ms) <==> Earliest(ms, m)
  {
    hide FirstOf, Earliest, KeywordList;
    if ms == [] {
      NothingReported();
      NothingEarliest(m);
    } else {
      var front, last := ms[..|ms| - 1], ms[|ms| - 1];
      assert ms == front + [last];
      FirstOfExact(front, m);
      FirstOfSnoc(front, last);
      EarliestSnoc(front, last, m);
      if m == last && last.keyword in KeywordList(front) { LastNotEarlier(front, last); }
    }
  }

  lemma NothingEarliest(m: Match)
    ensures !Earliest([], m)
  {
  }

  lemma LastNotEarlier(front: seq<Match>, last: Match)
    requires Ordered(front + [last])
    ensures !Earliest(front, last)
  {
    if last in front {
      var i :| 0 <= i < |front| && front[i] == last;
      assert Before((front + [last])[i], (front + [last])[|front|]);
    }
  }

  lemma {:induction false} FirstOfOrdered(ms: seq<Match>)
    requires Ordered(ms)
    ensures Ordered(FirstOf(ms)) && forall x :: x in FirstOf(ms) ==> x in ms
  {
    if ms != [] {
      var front, last := ms[..|ms| - 1], ms[|ms| - 1];
      assert ms == front + [last];
      FirstOfOrdered(front);
      forall x | x in front ensures Before(x, last) {
        var i :| 0 <= i < |front| && front[i] == x;
        assert Before(ms[i], ms[|front|]);
      }
    }
  }

  /** A keyword's first occurrence. */
  ghost predicate IsFirst(dict: set<Word>, text: Word, m: Match) {
    IsOccurrence(dict, text, m) &&
    forall x :: IsOccurrence(dict, text, x) && x.keyword == m.keyword ==> !Before(x, m)
  }

  lemma FirstOccurrences(dict: set<Word>, text: Word, m: Match)
    ensures m in FirstOf(AllMatches(dict, text)) <==> IsFirst(dict, text, m)
    ensures Ordered(FirstOf(AllMatches(dict, text)))
  {
    AllMatchesOrdered(dict, text);
    FirstOfExact(AllMatches(dict, text), m);
    FirstOfOrdered(AllMatches(dict, text));
    AllMatchesExact(dict, text, m);
    forall x ensures x in AllMatches(dict, text) <==> IsOccurrence(dict, text, x) { AllMatchesExact(dict, text, x); }
  }

  /** New keywords at one position are the ones deduplication appends there. */
  lemma {:induction false} FirstOfSpans(ms: seq<Match>, ks: seq<Word>, end: nat)
    ensures Dedup(KeywordList(ms)) <= Dedup(KeywordList(ms) + ks)
    ensures FirstOf(ms + Spans(ks, end)) ==
              FirstOf(ms) + Spans(Dedup(KeywordList(ms) + ks)[|Dedup(KeywordList(ms))|..], end)
    decreases |ks|
  {
    hide FirstOf, Dedup, Spans, KeywordList;
    var a := KeywordList(ms);
    if ks == [] {
      NoSpans(end);
      assert ms + [] == ms && a + ks == a && Dedup(a)[|Dedup(a)|..] == [];
    } else {
      var n := |ks| - 1;
      var front, k := ks[..n], ks[n];
      assert ks == front + [k] && a + ks == (a + front) + [k];
      FirstOfSpans(ms, front, end);
      SpansSnoc(front, k, end);
      var here, m := ms + Spans(front, end), Match(k, end - |k|, end);
      assert ms + Spans(ks, end) == here + [m];
      FirstOfSnoc(here, m);
      KeywordListConcat(ms, Spans(front, end));
      KeywordListSpans(front, end);
      DedupSnoc(a + front, k);
      if k !in a + front {
        SpansSnoc(Dedup(a + front)[|Dedup(a)|..], k, end);
        assert Dedup(a + ks)[|Dedup(a)|..] == Dedup(a + front)[|Dedup(a)|..] + [k];
      }
    }
  }

  lemma NoSpans(end: nat)
    ensures Spans([], end) == []
  {
  }

  lemma FirstOfSnoc(ms: seq<Match>, m: Match)
    ensures FirstOf(ms + [m]) == if m.keyword in KeywordList(ms) then FirstOf(ms) else FirstOf(ms) + [m]
  {
    assert (ms + [m])[..|ms|] == ms;
  }

  lemma {:induction false} SpansSnoc(ks: seq<Word>, k: Word, end: nat)
    ensures Spans(ks + [k], end) == Spans(ks, end) + [Match(k, end - |k|, end)]
  {
    if ks != [] {
      SpansSnoc(ks[1..], k, end);
      assert (ks + [k])[1..] == ks[1..] + [k];
    }
  }

  /** First occurrences in one shard, collected without revisiting states. */
  method FirstMatches(e: Engine, text: Word, dedupHashMin: int) returns (r: seq<Match>)
    requires e.Valid()
    ensures r == FirstOf(AllMatches(e.dict, text))
  {
    hide Engine.Valid, SetCollector.Valid, AllMatches, Landing, KeywordSuffixes, Spans, Dedup, TablesOk, Injective, KeywordList;
    e.OutOk();
    var c := new SetCollector();
    c.Fresh(e.Out(), e.dict, e.path);
    r := [];
    var state, end := e.root, 0;
    assert text[..0] == [];
    ScanStart(e.dict, text, _ => true);
    NothingReported();
    while end < |text|
      invariant 0 <= end <= |text| && state in e.path && e.path[state] == Landing(e.dict, text[..end])
      invariant e.Valid() && fresh(c) && c.Valid(e.Out(), e.dict, e.path)
      invariant c.reported == KeywordList(AllMatches(e.dict, text[..end])) && r == FirstOf(AllMatches(e.dict, text[..end]))
    {
      var out;
      ScanStep(e.dict, text, end);
      state, out := e.Step(state, text[end], text[..end]);
      FirstOfSpans(AllMatches(e.dict, text[..end]), KeywordSuffixes(e.dict, e.path[state]), end + 1);
      assert AllMatches(e.dict, text[..end]) + [] == AllMatches(e.dict, text[..end]);
      assert KeywordList(AllMatches(e.dict, text[..end])) + [] == KeywordList(AllMatches(e.dict, text[..end]));
      end := end + 1;
      if out {
        c.Result(e.Out(), e.dict, e.path);
        var base := |c.out|;
        c.CollectChain(e.Out(), state, dedupHashMin, e.dict, e.path);
        c.Result(e.Out(), e.dict, e.path);
        r := r + Spans(c.out[base..], end);
      }
    }
    assert text[..end] == text;
  }

  lemma NothingReported()
    ensures KeywordList([]) == [] && FirstOf([]) == []
  {
  }

  // ----- occurrences across shards -----

  ghost predicate OccursIn(dicts: seq<set<Word>>, text: Word, m: Match, n: nat)
    requires n <= |dicts|
  {
    exists i :: 0 <= i < n && IsOccurrence(dicts[i], text, m)
  }

  lemma SplitOccurrence(dicts: seq<set<Word>>, dict: set<Word>, text: Word, m: Match)
    requires Splits(dicts, dict)
    ensures OccursIn(dicts, text, m, |dicts|) <==> IsOccurrence(dict, text, m)
  {
    if IsOccurrence(dict, text, m) {
      var i := ShardOf(dicts, dict, m.keyword);
      assert IsOccurrence(dicts[i], text, m);
    }
    if i :| 0 <= i < |dicts| && IsOccurrence(dicts[i], text, m) { assert InSome(dicts, m.keyword); }
  }

  lemma SplitFirst(dicts: seq<set<Word>>, dict: set<Word>, text: Word, i: nat, m: Match)
    requires Splits(dicts, dict) && i < |dicts| && m.keyword in dicts[i]
    ensures IsFirst(dicts[i], text, m) <==> IsFirst(dict, text, m)
  {
    assert InSome(dicts, m.keyword);
    forall x: Match | x.keyword == m.keyword ensures IsOccurrence(dicts[i], text, x) <==> IsOccurrence(dict, text, x) { }
  }

  /** Lists from different shards have nothing in common. */
  lemma JoinDistinct(dicts: seq<set<Word>>, dict: set<Word>, a: seq<Match>, b: seq<Match>, n: nat)
    requires Splits(dicts, dict) && n < |dicts| && Distinct(a) && Distinct(b)
    requires forall m :: m in a ==> exists i :: 0 <= i < n && m.keyword in dicts[i]
    requires forall m :: m in b ==> m.keyword in dicts[n]
    ensures Distinct(a + b)
  {
    forall i, j | 0 <= i < j < |a + b| ensures (a + b)[i] != (a + b)[j] {
      if i < |a| <= j {
        assert a[i] in a && b[j - |a|] in b;
        var h :| 0 <= h < n && a[i].keyword in dicts[h];
      }
    }
  }

  // ----- the composite -----

  class CompositeEngine {
    const shards: seq<Engine>
    const maxKeywordRunes: nat
    ghost const dict: set<Word>
    ghost const Repr: set<object?>

    ghost function Dicts(): seq<set<Word>> { seq(|shards|, i requires 0 <= i < |shards| => shards[i].dict) }

    ghost predicate Valid()
      reads this, Repr
    {
      && Splits(Dicts(), dict) && Longest(dict, maxKeywordRunes)
      && (forall i :: 0 <= i < |shards| ==> shards[i] in Repr && shards[i].Repr <= Repr && shards[i].Valid())
    }

    /** Presents disjoint engines as one; engines without keywords are dropped. */
    constructor (engines: seq<Engine>, ghost dict: set<Word>, ghost repr: set<object?>)
      requires forall i :: 0 <= i < |engines| ==> engines[i] in repr && engines[i].Repr <= repr && engines[i].Valid()
      requires Splits(seq(|engines|, i requires 0 <= i < |engines| => engines[i].dict), dict) && [] !in dict
      ensures Valid() && this.dict == dict
    {
      var kept, from, longest := KeepNonEmpty(engines);
      KeptSplits(engines, kept, from, dict);
      KeptLongest(engines, dict, longest);
      shards, maxKeywordRunes := kept, longest;
      this.dict, Repr := dict, repr;
    }

    /** Every match of every shard, sorted into scan order. */
    method Matches(text: Word) returns (r: seq<Match>)
      requires Valid()
      ensures r == AllMatches(dict, text)
    {
      hide Engine.Valid, AllMatches, IsOccurrence, Splits, Sorted;
      r := [];
      for n := 0 to |shards|
        invariant Distinct(r) && forall m :: m in r <==> OccursIn(Dicts(), text, m, n)
      {
        var found := shards[n].MatchString(text, _ => true);
        AcceptAll([], AllMatches(shards[n].dict, text), _ => true);
        assert [] + AllMatches(shards[n].dict, text) == AllMatches(shards[n].dict, text);
        JoinShard(Dicts(), dict, text, r, n);
        r := r + found;
      }
      forall m ensures m in r <==> IsOccurrence(dict, text, m) { SplitOccurrence(Dicts(), dict, text, m); }
      var sorted := SortMatches(r);
      SortedIsReference(dict, text, r, sorted);
      r := sorted;
    }

    method Find(text: Word) returns (found: seq<Word>)
      requires Valid()
      ensures found == KeywordList(AllMatches(dict, text)) && |found| == |AllMatches(dict, text)|
      ensures forall n :: 0 <= n < |found| ==> found[n] == AllMatches(dict, text)[n].keyword
    {
      var ms := Matches(text);
      KeywordListEach(ms);
      found := KeywordList(ms);
    }

    /** Each keyword once, in the order a single engine would find them. */
    method FindSet(text: Word, dedupHashMin: int) returns (found: seq<Word>)
      requires Valid()
      ensures found == Dedup(KeywordList(AllMatches(dict, text)))
    {
      hide Engine.Valid, AllMatches, Splits, Sorted, IsFirst, FirstOf;
      var r: seq<Match> := [];
      for n := 0 to |shards|
        invariant Distinct(r) && forall m :: m in r <==> FirstIn(Dicts(), text, m, n)
      {
        var first := FirstMatches(shards[n], text, dedupHashMin);
        JoinFirst(Dicts(), dict, text, r, n);
        r := r + first;
      }
      var sorted := SortMatches(r);
      FirstReference(Dicts(), dict, text, r, sorted);
      FirstOfKeywords(AllMatches(dict, text));
      found := KeywordList(sorted);
    }

    /** The shards' index maps, put side by side. */
    method FindIndex(text: Word) returns (r: map<Word, seq<int>>)
      requires Valid()
      ensures r == IndexAll(map[], AllMatches(dict, text))
    {
      hide Engine.Valid, AllMatches, Splits, IndexAll;
      r := map[];
      for n := 0 to |shards|
        invariant IndexUpTo(Dicts(), text, r, n)
      {
        var found := shards[n].FindIndex(text);
        IndexOfMatches(shards[n].dict, text);
        JoinIndex(Dicts(), dict, text, r, found, n);
        r := r + found;
      }
      IndexJoined(Dicts(), dict, text, r);
      IndexOfMatches(dict, text);
      IndexUnique(dict, text, r, IndexAll(map[], AllMatches(dict, text)));
    }
  }

  /** `n` is the largest of the engines' longest keywords. */
  ghost predicate LargestOf(engines: seq<Engine>, n: nat) {
    && (forall i :: 0 <= i < |engines| ==> engines[i].maxKeywordRunes <= n)
    && (n > 0 ==> exists i :: 0 <= i < |engines| && engines[i].maxKeywordRunes == n)
  }

  lemma KeptLongest(engines: seq<Engine>, dict: set<Word>, n: nat)
    requires forall i :: 0 <= i < |engines| ==> Longest(engines[i].dict, engines[i].maxKeywordRunes)
    requires Splits(seq(|engines|, i requires 0 <= i < |engines| => engines[i].dict), dict) && LargestOf(engines, n)
    ensures Longest(dict, n)
  {
    var all := seq(|engines|, i requires 0 <= i < |engines| => engines[i].dict);
    forall k | k in dict ensures |k| <= n {
      var i := ShardOf(all, dict, k);
      assert k in engines[i].dict;
    }
    if n > 0 {
      var i :| 0 <= i < |engines| && engines[i].maxKeywordRunes == n;
      var k :| k in engines[i].dict && |k| == n;
      assert k in all[i] && InSome(all, k);
    }
  }

  /** The engines with keywords, in order, where they came from, and the longest keyword
      of all. */
  method KeepNonEmpty(engines: seq<Engine>) returns (kept: seq<Engine>, ghost from: seq<nat>, longest: nat)
    ensures LargestOf(engines, longest) && KeptFrom(engines, |engines|, kept, from)
  {
    hide KeptFrom, LargestOf;
    kept, from, longest := [], [], 0;
    NothingKept(engines);
    for n := 0 to |engines|
      invariant LargestOf(engines[..n], longest) && KeptFrom(engines, n, kept, from)
    {
      KeptNext(engines, n, kept, from);
      if engines[n].maxKeywordRunes != 0 {
        kept, from := kept + [engines[n]], from + [n];
      }
      LargestStep(engines, n, longest);
      if engines[n].maxKeywordRunes > longest { longest := engines[n].maxKeywordRunes; }
    }
    assert engines[..|engines|] == engines;
  }

  /** The non-empty ones of the first `n` engines, in order. */
  ghost predicate KeptFrom(engines: seq<Engine>, n: nat, kept: seq<Engine>, from: seq<nat>) {
    && n <= |engines| && |kept| == |from|
    && (forall j :: 0 <= j < |kept| ==> from[j] < n && kept[j] == engines[from[j]])
    && (forall i, j :: 0 <= i < j < |kept| ==> from[i] < from[j])
    && (forall h :: 0 <= h < n && engines[h].maxKeywordRunes > 0 ==> h in from)
  }

  lemma NothingKept(engines: seq<Engine>)
    ensures KeptFrom(engines, 0, [], []) && LargestOf(engines[..0], 0)
  {
  }

  lemma KeptNext(engines: seq<Engine>, n: nat, kept: seq<Engine>, from: seq<nat>)
    requires KeptFrom(engines, n, kept, from) && n < |engines|
    ensures if engines[n].maxKeywordRunes != 0 then KeptFrom(engines, n + 1, kept + [engines[n]], from + [n]) else KeptFrom(engines, n + 1, kept, from)
  {
  }

  lemma LargestStep(engines: seq<Engine>, n: nat, longest: nat)
    requires n < |engines| && LargestOf(engines[..n], longest)
    ensures LargestOf(engines[..n + 1], if engines[n].maxKeywordRunes > longest then engines[n].maxKeywordRunes else longest)
  {
    var more := engines[..n + 1];
    assert more[n] == engines[n] && forall i :: 0 <= i < n ==> more[i] == engines[..n][i];
  }

  lemma KeptSplits(engines: seq<Engine>, kept: seq<Engine>, from: seq<nat>, dict: set<Word>)
    requires forall i :: 0 <= i < |engines| ==> Longest(engines[i].dict, engines[i].maxKeywordRunes)
    requires Splits(seq(|engines|, i requires 0 <= i < |engines| => engines[i].dict), dict) && [] !in dict
    requires KeptFrom(engines, |engines|, kept, from)
    ensures Splits(seq(|kept|, i requires 0 <= i < |kept| => kept[i].dict), dict)
  {
    var all := seq(|engines|, i requires 0 <= i < |engines| => engines[i].dict);
    var some := seq(|kept|, i requires 0 <= i < |kept| => kept[i].dict);
    forall k ensures k in dict <==> InSome(some, k) {
      if k in dict {
        var h := ShardOf(all, dict, k);
        assert |k| > 0 && engines[h].maxKeywordRunes > 0;
        var j :| 0 <= j < |kept| && from[j] == h;
        assert k in some[j];
      }
      if j :| 0 <= j < |some| && k in some[j] {
        assert k in all[from[j]];
        assert InSome(all, k);
      }
    }
    forall i, j, k | 0 <= i < j < |some| && k in some[i] ensures k !in some[j] {
      assert k in all[from[i]] && some[j] == all[from[j]];
    }
  }

  lemma JoinShard(dicts: seq<set<Word>>, dict: set<Word>, text: Word, r: seq<Match>, n: nat)
    requires Splits(dicts, dict) && n < |dicts| && Distinct(r) && forall m :: m in r <==> OccursIn(dicts, text, m, n)
    ensures Distinct(r + AllMatches(dicts[n], text))
    ensures forall m :: m in r + AllMatches(dicts[n], text) <==> OccursIn(dicts, text, m, n + 1)
  {
    var b := AllMatches(dicts[n], text);
    AllMatchesOrdered(dicts[n], text);
    forall m ensures m in b <==> IsOccurrence(dicts[n], text, m) { AllMatchesExact(dicts[n], text, m); }
    forall m | m in r ensures exists i :: 0 <= i < n && m.keyword in dicts[i] {
      assert OccursIn(dicts, text, m, n);
    }
    JoinDistinct(dicts, dict, r, b, n);
    forall m ensures m in r + b <==> OccursIn(dicts, text, m, n + 1) {
      assert OccursIn(dicts, text, m, n + 1) <==> OccursIn(dicts, text, m, n) || IsOccurrence(dicts[n], text, m);
    }
  }

  ghost predicate FirstIn(dicts: seq<set<Word>>, text: Word, m: Match, n: nat)
    requires n <= |dicts|
  {
    exists i :: 0 <= i < n && IsFirst(dicts[i], text, m)
  }

  lemma JoinFirst(dicts: seq<set<Word>>, dict: set<Word>, text: Word, r: seq<Match>, n: nat)
    requires Splits(dicts, dict) && n < |dicts| && Distinct(r) && forall m :: m in r <==> FirstIn(dicts, text, m, n)
    ensures Distinct(r + FirstOf(AllMatches(dicts[n], text)))
    ensures forall m :: m in r + FirstOf(AllMatches(dicts[n], text)) <==> FirstIn(dicts, text, m, n + 1)
  {
    var b := FirstOf(AllMatches(dicts[n], text));
    FirstOccurrences(dicts[n], text, Match([], 0, 0));
    forall m ensures m in b <==> IsFirst(dicts[n], text, m) { FirstOccurrences(dicts[n], text, m); }
    forall m | m in r ensures exists i :: 0 <= i < n && m.keyword in dicts[i] {
      assert FirstIn(dicts, text, m, n);
    }
    JoinDistinct(dicts, dict, r, b, n);
    forall m ensures m in r + b <==> FirstIn(dicts, text, m, n + 1) {
      assert FirstIn(dicts, text, m, n + 1) <==> FirstIn(dicts, text, m, n) || IsFirst(dicts[n], text, m);
    }
  }

  lemma FirstReference(dicts: seq<set<Word>>, dict: set<Word>, text: Word, r: seq<Match>, sorted: seq<Match>)
    requires Splits(dicts, dict) && Distinct(r) && forall m :: m in r <==> FirstIn(dicts, text, m, |dicts|)
    requires Sorted(sorted) && multiset(sorted) == multiset(r)
    ensures sorted == FirstOf(AllMatches(dict, text))
  {
    forall m ensures FirstIn(dicts, text, m, |dicts|) <==> IsFirst(dict, text, m) {
      if IsFirst(dict, text, m) {
        var i := ShardOf(dicts, dict, m.keyword);
        SplitFirst(dicts, dict, text, i, m);
      }
      if i :| 0 <= i < |dicts| && IsFirst(dicts[i], text, m) { SplitFirst(dicts, dict, text, i, m); }
    }
    forall m ensures multiset(sorted)[m] <= 1 { DistinctCounts(r, m); }
    CountsDistinct(sorted);
    assert forall m :: m in sorted <==> m in multiset(sorted);
    assert forall m :: m in r <==> m in multiset(r);
    SortedStrict(dict, text, sorted);
    FirstOccurrences(dict, text, Match([], 0, 0));
    forall m ensures m in sorted <==> m in FirstOf(AllMatches(dict, text)) { FirstOccurrences(dict, text, m); }
    OrderedUnique(sorted, FirstOf(AllMatches(dict, text)));
  }

  // ----- index maps across shards -----

  /** `r` holds the index maps of the first `n` shards. */
  ghost predicate IndexUpTo(dicts: seq<set<Word>>, text: Word, r: map<Word, seq<int>>, n: nat)
    requires n <= |dicts|
  {
    && (forall i, k, s :: 0 <= i < n && Occurs(dicts[i], text, k, s) ==> k in r)
    && (forall k :: k in r ==> r[k] != [] && exists i :: 0 <= i < n && k in dicts[i] && Lists(dicts[i], text, k, r[k]))
  }

  lemma JoinIndex(dicts: seq<set<Word>>, dict: set<Word>, text: Word, r: map<Word, seq<int>>, found: map<Word, seq<int>>, n: nat)
    requires Splits(dicts, dict) && n < |dicts| && IndexUpTo(dicts, text, r, n) && IsIndex(dicts[n], text, found)
    ensures IndexUpTo(dicts, text, r + found, n + 1)
  {
    var all := r + found;
    forall k | k in all
      ensures all[k] != [] && exists i :: 0 <= i < n + 1 && k in dicts[i] && Lists(dicts[i], text, k, all[k])
    {
      if k in found {
        assert Lists(dicts[n], text, k, found[k]) && found[k][0] in found[k];
        assert Occurs(dicts[n], text, k, found[k][0]);
      } else {
        var i :| 0 <= i < n && k in dicts[i] && Lists(dicts[i], text, k, r[k]);
      }
    }
  }

  lemma IndexJoined(dicts: seq<set<Word>>, dict: set<Word>, text: Word, r: map<Word, seq<int>>)
    requires Splits(dicts, dict) && IndexUpTo(dicts, text, r, |dicts|)
    ensures IsIndex(dict, text, r)
  {
    forall k, s | Occurs(dict, text, k, s) ensures k in r {
      var i := ShardOf(dicts, dict, k);
      assert Occurs(dicts[i], text, k, s);
    }
    forall k | k in r ensures Lists(dict, text, k, r[k]) && r[k] != [] {
      var i :| 0 <= i < |dicts| && k in dicts[i] && Lists(dicts[i], text, k, r[k]);
      assert InSome(dicts, k);
      forall s ensures s in r[k] <==> Occurs(dict, text, k, s) {
        assert Occurs(dicts[i], text, k, s) <==> Occurs(dict, text, k, s);
      }
    }
  }
}
