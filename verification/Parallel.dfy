/** Parallel search over chunks that own disjoint ranges of start positions
    (pkg/acor/parallel.go, pkg/acor/context_ops.go). */
module Parallel {
  import opened Matching
  import opened OutputTables
  import opened Engines
  import opened IndexMaps
  import opened Selection

  const MAX_BACKTRACK_DIVISOR: int := 2

  /** A chunk owns the first `owned` start positions of its text. */
  datatype Chunk = Chunk(text: Word, offset: nat, owned: nat)

  datatype Boundary = WordBoundary | LineBoundary | SentenceBoundary

  function Fold(text: Word, fold: Rune -> Rune): Word { seq(|text|, i requires 0 <= i < |text| => fold(text[i])) }

  // ----- boundaries -----

  predicate IsBoundary(runes: Word, i: int, kind: Boundary, isSpace: Rune -> bool) {
    0 < i < |runes| &&
    match kind
    case WordBoundary => isSpace(runes[i]) && !isSpace(runes[i - 1])
    case LineBoundary => runes[i - 1] == 10
    case SentenceBoundary => (runes[i - 1] == 46 || runes[i - 1] == 33 || runes[i - 1] == 63) && isSpace(runes[i])
  }

  /** The last boundary in the window before `target`, or `target` itself. */
  method FindBoundary(runes: Word, target: int, kind: Boundary, maxBacktrack: int, isSpace: Rune -> bool) returns (at: int)
    ensures at == target || (target - maxBacktrack < at < target && 0 < at && IsBoundary(runes, at, kind, isSpace))
    ensures forall i :: at < i <= target && i > 0 && i > target - maxBacktrack ==> !IsBoundary(runes, i, kind, isSpace)
    ensures at < target && kind.WordBoundary? ==> isSpace(runes[at]) && !isSpace(runes[at - 1])
    ensures at < target && kind.LineBoundary? ==> runes[at - 1] == '\n' as int
    ensures at < target && kind.SentenceBoundary? ==> runes[at - 1] in {'.' as int, '!' as int, '?' as int} && isSpace(runes[at])
  {
    at := target;
    while at > target - maxBacktrack && at > 0
      invariant at <= target && (at < target ==> target - maxBacktrack <= at && 0 <= at)
      invariant forall i :: at < i <= target ==> !IsBoundary(runes, i, kind, isSpace)
    {
      if IsBoundary(runes, at, kind, isSpace) { return; }
      at := at - 1;
    }
    at := target;
  }

  // ----- splitting -----

  function Min(a: int, b: int): int { if a <= b then a else b }

  /** Consecutive chunks own consecutive ranges from 0 to `upTo`, and each extends
      `extension` runes past its own, as far as the text goes. */
  ghost predicate Tiles(runes: Word, chunks: seq<Chunk>, extension: nat, upTo: nat) {
    && (forall i {:trigger TileOk(runes, chunks, extension, i)} :: 0 <= i < |chunks| ==> TileOk(runes, chunks, extension, i))
    && upTo == StartOf(chunks, |chunks|) && upTo <= |runes|
  }

  /** Where the `i`th chunk starts. */
  ghost function StartOf(chunks: seq<Chunk>, i: nat): nat
    requires i <= |chunks|
  {
    if i == 0 then 0 else chunks[i - 1].offset + chunks[i - 1].owned
  }

  ghost predicate TileOk(runes: Word, chunks: seq<Chunk>, extension: nat, i: nat)
    requires i < |chunks|
  {
    var c := chunks[i];
    && c.offset == StartOf(chunks, i) && c.owned > 0 && c.offset + c.owned <= |runes|
    && c.text == runes[c.offset..Min(c.offset + c.owned + extension, |runes|)]
  }

  method SplitAutoChunks(runes: Word, chunkSize: int, overlap: nat, kind: Boundary, longest: nat, isSpace: Rune -> bool)
    returns (chunks: seq<Chunk>, extension: nat)
    requires chunkSize > 0
    ensures Tiles(runes, chunks, extension, |runes|) && extension >= longest - 1 && extension >= overlap
    ensures forall i :: 0 <= i < |chunks| ==> chunks[i].owned <= chunkSize && (i < |chunks| - 1 ==> chunks[i].owned >= chunkSize - chunkSize / 2)
  {
    extension := if overlap >= longest - 1 then overlap else longest - 1;
    chunks := [];
    var start := 0;
    while start < |runes|
      invariant Tiles(runes, chunks, extension, start)
      invariant forall i :: 0 <= i < |chunks| ==>
                  chunks[i].owned <= chunkSize && (i < |chunks| - 1 || start < |runes| ==> chunks[i].owned >= chunkSize - chunkSize / 2)
      decreases |runes| - start
    {
      var end := start + Min(chunkSize, |runes| - start);
      if end < |runes| {
        var boundary := FindBoundary(runes, end, kind, chunkSize / MAX_BACKTRACK_DIVISOR, isSpace);
        if boundary > start { end := boundary; }
      }
      var searchEnd := end + Min(extension, |runes| - end);
      var c := Chunk(runes[start..searchEnd], start, end - start);
      TileAdded(runes, chunks, extension, start, c);
      chunks := chunks + [c];
      start := end;
    }
  }

  lemma TileAdded(runes: Word, chunks: seq<Chunk>, extension: nat, start: nat, c: Chunk)
    requires Tiles(runes, chunks, extension, start) && c.offset == start && c.owned > 0 && start + c.owned <= |runes|
    requires c.text == runes[start..Min(start + c.owned + extension, |runes|)]
    ensures Tiles(runes, chunks + [c], extension, start + c.owned)
  {
    forall i | 0 <= i < |chunks + [c]| ensures TileOk(runes, chunks + [c], extension, i) {
      if i < |chunks| { assert TileOk(runes, chunks, extension, i); }
    }
  }

  // ----- ownership -----

  ghost predicate Owns(c: Chunk, p: int) { c.offset <= p < c.offset + c.owned }

  lemma {:induction false} StartsGrow(runes: Word, chunks: seq<Chunk>, extension: nat, upTo: nat, i: nat, j: nat)
    requires Tiles(runes, chunks, extension, upTo) && i <= j <= |chunks|
    ensures StartOf(chunks, i) + (j - i) <= StartOf(chunks, j)
    decreases j - i
  {
    if i < j {
      StartsGrow(runes, chunks, extension, upTo, i, j - 1);
      assert TileOk(runes, chunks, extension, j - 1);
    }
  }

  /** Every position has exactly one owner. */
  lemma {:induction false} OwnerOf(runes: Word, chunks: seq<Chunk>, extension: nat, p: nat, n: nat) returns (i: nat)
    requires Tiles(runes, chunks, extension, |runes|) && n <= |chunks| && p < StartOf(chunks, n)
    ensures i < n && Owns(chunks[i], p)
    ensures forall j :: 0 <= j < |chunks| && Owns(chunks[j], p) ==> j == i
    decreases n
  {
    i := n - 1;
    assert TileOk(runes, chunks, extension, i);
    if p < chunks[i].offset {
      i := OwnerOf(runes, chunks, extension, p, i);
    } else {
      forall j | 0 <= j < |chunks| && Owns(chunks[j], p) ensures j == i {
        assert TileOk(runes, chunks, extension, j);
        if j < i { StartsGrow(runes, chunks, extension, |runes|, j + 1, i); }
        if j > i { StartsGrow(runes, chunks, extension, |runes|, i + 1, j); }
      }
    }
  }

  lemma FoldSlice(text: Word, fold: Rune -> Rune, a: nat, b: nat)
    requires a <= b <= |text|
    ensures Fold(text[a..b], fold) == Fold(text, fold)[a..b]
  {
  }

  lemma SliceOfSlice(text: Word, a: nat, b: nat, s: nat, e: nat)
    requires a <= b <= |text| && s <= e <= b - a
    ensures text[a..b][s..e] == text[a + s..a + e]
  {
    forall i | 0 <= i < e - s ensures text[a..b][s..e][i] == text[a + s..a + e][i] { }
  }

  /** An occurrence that starts in a chunk's own range lies wholly in its text, and
      every occurrence in its text is one in the whole. */
  lemma OwnedOccurrence(dict: set<Word>, runes: Word, chunks: seq<Chunk>, extension: nat, i: nat, fold: Rune -> Rune, k: Word, s: int)
    requires Tiles(runes, chunks, extension, |runes|) && i < |chunks|
    requires forall w :: w in dict ==> |w| <= extension + 1
    ensures Occurs(dict, Fold(chunks[i].text, fold), k, s) && s < chunks[i].owned <==>
              Occurs(dict, Fold(runes, fold), k, s + chunks[i].offset) && Owns(chunks[i], s + chunks[i].offset)
  {
    hide Fold;
    var c := chunks[i];
    assert TileOk(runes, chunks, extension, i);
    var a, b := c.offset, Min(c.offset + c.owned + extension, |runes|);
    FoldSlice(runes, fold, a, b);
    FoldSize(runes, fold);
    if 0 <= s && s + |k| <= b - a { SliceOfSlice(Fold(runes, fold), a, b, s, s + |k|); }
  }

  lemma FoldSize(text: Word, fold: Rune -> Rune)
    ensures |Fold(text, fold)| == |text|
  {
  }

  // ----- scanning one chunk -----

  /** The index map of a chunk's own start positions. */
  ghost predicate OwnIndex(dict: set<Word>, text: Word, owned: nat, index: map<Word, seq<int>>) {
    && (forall k, s {:trigger Occurs(dict, text, k, s)} :: Occurs(dict, text, k, s) && s < owned ==> k in index && s in index[k])
    && (forall k, s {:trigger s in index[k]} :: k in index && s in index[k] ==> Occurs(dict, text, k, s) && s < owned)
    && (forall k {:trigger k in index} :: k in index ==> index[k] != [])
  }

  method ScanChunk(e: Engine, text: Word, owned: nat) returns (index: map<Word, seq<int>>)
    requires e.Valid()
    ensures OwnIndex(e.dict, text, owned, index)
  {
    hide Engine.Valid, AllMatches, IndexAll, DeliveredFrom;
    var ms := e.MatchString(text, _ => true);
    AcceptAll([], AllMatches(e.dict, text), _ => true);
    assert [] + AllMatches(e.dict, text) == AllMatches(e.dict, text);
    var own := (m: Match) => m.start < owned;
    index := map[];
    IndexStart(own);
    for i := 0 to |ms|
      invariant index == IndexAll(map[], Kept(ms[..i], own))
    {
      assert ms[..i + 1] == ms[..i] + [ms[i]];
      KeptSnoc(ms[..i], ms[i], own);
      IndexSnoc(Kept(ms[..i], own), ms[i]);
      var m := ms[i];
      if m.start < owned {
        index := index[m.keyword := (if m.keyword in index then index[m.keyword] else []) + [m.start]];
      }
    }
    assert ms[..|ms|] == ms;
    OwnedStarts(e.dict, text, owned, own);
  }

  lemma IndexStart(keep: Match -> bool)
    ensures IndexAll(map[], Kept([], keep)) == map[]
  {
  }

  lemma IndexSnoc(ms: seq<Match>, m: Match)
    ensures IndexAll(map[], ms + [m]) == IndexOne(IndexAll(map[], ms), m)
    ensures ms + [] == ms
  {
    IndexAllSplit(map[], ms, [m]);
    assert [m][1..] == [];
  }

  lemma OwnedStarts(dict: set<Word>, text: Word, owned: nat, own: Match -> bool)
    requires forall m :: own(m) <==> m.start < owned
    ensures OwnIndex(dict, text, owned, IndexAll(map[], Kept(AllMatches(dict, text), own)))
  {
    var all := AllMatches(dict, text);
    var ms := Kept(all, own);
    var index := IndexAll(map[], ms);
    forall m ensures m in ms <==> IsOccurrence(dict, text, m) && m.start < owned {
      AllMatchesExact(dict, text, m);
      KeptMembers(all, own, m);
    }
    forall k, s ensures s in Starts(ms, k) <==> Occurs(dict, text, k, s) && s < owned {
      StartsMembers(ms, k, s);
      if s in Starts(ms, k) {
        var m :| m in ms && m.keyword == k && m.start == s;
        assert m == Match(k, s, s + |k|);
      }
      if Occurs(dict, text, k, s) && s < owned { assert Match(k, s, s + |k|) in ms; }
    }
    forall k, s | Occurs(dict, text, k, s) && s < owned ensures k in index && s in index[k] {
      assert s in Starts(ms, k);
      IndexAllStarts(ms, k);
    }
    forall k | k in index ensures index[k] != [] && index[k] == Starts(ms, k) { IndexAllStarts(ms, k); }
  }

  // ----- merging -----

  /** Position `p` of keyword `k` was reported by one of the first `n` chunks. */
  ghost predicate Reported(chunks: seq<Chunk>, perChunk: seq<map<Word, seq<int>>>, n: nat, k: Word, p: int)
    requires n <= |chunks| == |perChunk|
  {
    exists i {:trigger perChunk[i]} :: 0 <= i < n && k in perChunk[i] && p - chunks[i].offset in perChunk[i][k]
  }

  ghost predicate In(merged: map<Word, set<int>>, k: Word, p: int) { k in merged && p in merged[k] }

  ghost predicate Merged(chunks: seq<Chunk>, perChunk: seq<map<Word, seq<int>>>, n: nat, merged: map<Word, set<int>>)
    requires n <= |chunks| == |perChunk|
  {
    forall k, p {:trigger Reported(chunks, perChunk, n, k, p)} {:trigger In(merged, k, p)} ::
      Reported(chunks, perChunk, n, k, p) <==> In(merged, k, p)
  }

  /** The given offsets, shifted. */
  ghost predicate Shifted(indices: seq<int>, offset: int, before: set<int>, after: set<int>) {
    forall p {:trigger p in after} :: p in after <==> p in before || p - offset in indices
  }

  method AddShifted(indices: seq<int>, offset: int, before: set<int>) returns (after: set<int>)
    ensures Shifted(indices, offset, before, after)
  {
    after := before;
    for i := 0 to |indices|
      invariant Shifted(indices[..i], offset, before, after)
    {
      assert indices[..i + 1] == indices[..i] + [indices[i]];
      after := after + {indices[i] + offset};
    }
    assert indices[..|indices|] == indices;
  }

  /** One chunk's map is folded into `merged`, keyword by keyword. */
  ghost predicate Folded(m: map<Word, seq<int>>, offset: int, todo: set<Word>, before: map<Word, set<int>>, after: map<Word, set<int>>) {
    && (forall k {:trigger k in after} :: k in after <==> k in before || (k in m && k !in todo))
    && (forall k {:trigger after[k]} :: k in after ==>
          if k in m && k !in todo then Shifted(m[k], offset, if k in before then before[k] else {}, after[k]) else k in before && after[k] == before[k])
  }

  method MergeChunk(m: map<Word, seq<int>>, offset: int, before: map<Word, set<int>>) returns (after: map<Word, set<int>>)
    ensures Folded(m, offset, {}, before, after)
  {
    after := before;
    var todo := m.Keys;
    while todo != {}
      invariant todo <= m.Keys && Folded(m, offset, todo, before, after)
      decreases |todo|
    {
      var k :| k in todo;
      assert k in after ==> k in before && after[k] == before[k];
      var shifted := AddShifted(m[k], offset, if k in after then after[k] else {});
      after := after[k := shifted];
      todo := todo - {k};
    }
  }

  lemma MergedAt(chunks: seq<Chunk>, perChunk: seq<map<Word, seq<int>>>, n: nat, before: map<Word, set<int>>, after: map<Word, set<int>>, k: Word, p: int)
    requires n < |chunks| == |perChunk| && Merged(chunks, perChunk, n, before)
    requires Folded(perChunk[n], chunks[n].offset, {}, before, after)
    ensures Reported(chunks, perChunk, n + 1, k, p) <==> In(after, k, p)
  {
    assert Reported(chunks, perChunk, n, k, p) <==> In(before, k, p);
    assert Reported(chunks, perChunk, n + 1, k, p) <==>
           Reported(chunks, perChunk, n, k, p) || (k in perChunk[n] && p - chunks[n].offset in perChunk[n][k]) by {
      if Reported(chunks, perChunk, n, k, p) {
        var i :| 0 <= i < n && k in perChunk[i] && p - chunks[i].offset in perChunk[i][k];
      }
    }
  }

  lemma MergedMore(chunks: seq<Chunk>, perChunk: seq<map<Word, seq<int>>>, n: nat, before: map<Word, set<int>>, after: map<Word, set<int>>)
    requires n < |chunks| == |perChunk| && Merged(chunks, perChunk, n, before)
    requires Folded(perChunk[n], chunks[n].offset, {}, before, after)
    ensures Merged(chunks, perChunk, n + 1, after)
  {
    hide Folded, Reported, In;
    forall k, p ensures Reported(chunks, perChunk, n + 1, k, p) <==> In(after, k, p) {
      MergedAt(chunks, perChunk, n, before, after, k, p);
    }
  }

  method InsertInt(s: seq<int>, x: int) returns (r: seq<int>)
    requires Increasing(s) && x !in s
    ensures Increasing(r) && forall y :: y in r <==> y in s || y == x
  {
    hide Increasing;
    var i := |s|;
    while i > 0 && s[i - 1] > x
      invariant 0 <= i <= |s| && (i < |s| ==> x < s[i])
    {
      i := i - 1;
    }
    InsertedInt(s, x, i);
    r := s[..i] + [x] + s[i..];
  }

  lemma InsertedInt(s: seq<int>, x: int, i: nat)
    requires Increasing(s) && x !in s && i <= |s| && (i < |s| ==> x < s[i]) && (i > 0 ==> s[i - 1] <= x)
    ensures var r := s[..i] + [x] + s[i..];
            Increasing(r) && forall y :: y in r <==> y in s || y == x
  {
    InsertedMembers(s, x, i);
    if i > 0 {
      var y := s[i - 1];
      assert y in s;
    }
    InsertedOrder(s, x, i);
  }

  lemma InsertedMembers(s: seq<int>, x: int, i: nat)
    requires i <= |s|
    ensures forall y :: y in s[..i] + [x] + s[i..] <==> y in s || y == x
  {
    forall y ensures y in s[..i] + [x] + s[i..] <==> y in s || y == x { assert s == s[..i] + s[i..]; }
  }

  lemma InsertedOrder(s: seq<int>, x: int, i: nat)
    requires Increasing(s) && i <= |s| && (i < |s| ==> x < s[i]) && (i > 0 ==> s[i - 1] < x)
    ensures Increasing(s[..i] + [x] + s[i..])
  {
    var r := s[..i] + [x] + s[i..];
    assert forall a :: 0 <= a < i ==> r[a] == s[a] && s[a] < x;
    assert forall a :: i < a < |r| ==> r[a] == s[a - 1] && x < r[a];
  }

  method SortSet(s: set<int>) returns (r: seq<int>)
    ensures Increasing(r) && forall y :: y in r <==> y in s
  {
    r := [];
    var todo := s;
    while |todo| > 0
      invariant todo <= s && Increasing(r) && forall y :: y in r <==> y in s && y !in todo
      decreases |todo|
    {
      SomeRune(todo);
      var x :| x in todo;
      r := InsertInt(r, x);
      todo := todo - {x};
    }
  }

  /** Folds the per-chunk maps into one and sorts each keyword's offsets. */
  method MergeIndexResults(chunks: seq<Chunk>, perChunk: seq<map<Word, seq<int>>>) returns (r: map<Word, seq<int>>)
    requires |chunks| == |perChunk|
    ensures forall k :: k in r ==> Increasing(r[k])
    ensures forall k, p :: k in r && p in r[k] ==> Reported(chunks, perChunk, |chunks|, k, p)
    ensures forall k, p :: Reported(chunks, perChunk, |chunks|, k, p) ==> k in r && p in r[k]
    ensures forall k :: k in r ==> exists i :: 0 <= i < |chunks| && k in perChunk[i]
  {
    var merged: map<Word, set<int>> := map[];
    for i := 0 to |chunks|
      invariant Merged(chunks, perChunk, i, merged)
      invariant forall k :: k in merged ==> exists j :: 0 <= j < i && k in perChunk[j]
    {
      var after := MergeChunk(perChunk[i], chunks[i].offset, merged);
      MergedMore(chunks, perChunk, i, merged, after);
      merged := after;
    }
    r := map[];
    var todo := merged.Keys;
    while todo != {}
      invariant todo <= merged.Keys && forall k :: k in r <==> k in merged && k !in todo
      invariant forall k :: k in r ==> Increasing(r[k]) && forall p :: p in r[k] <==> p in merged[k]
      decreases |todo|
    {
      var k :| k in todo;
      var sorted := SortSet(merged[k]);
      r := r[k := sorted];
      todo := todo - {k};
    }
  }

  // ----- the parallel search -----

  datatype Options = Options(chunkSize: int, overlap: int, boundary: Boundary, isSpace: Rune -> bool)

  datatype IndexResult = InvalidChunkSize | Index(index: map<Word, seq<int>>)

  /** Searches the chunks (in any order) and merges: the same map as one serial scan. */
  method FindIndexParallel(e: Engine, text: Word, opts: Options, fold: Rune -> Rune) returns (r: IndexResult)
    requires e.Valid()
    ensures r.InvalidChunkSize? <==> opts.chunkSize <= 0
    ensures r.Index? ==>
              forall folded: Word :: |folded| == |text| && (forall i :: 0 <= i < |text| ==> folded[i] == fold(text[i])) ==>
                r.index == IndexAll(map[], AllMatches(e.dict, folded)) && IsIndex(e.dict, folded, r.index)
  {
    hide Engine.Valid, AllMatches, IndexAll, Tiles, OwnIndex, IsIndex;
    if opts.chunkSize <= 0 { return InvalidChunkSize; }
    IndexOfMatches(e.dict, Fold(text, fold));
    e.LongestOk();
    var overlap := if opts.overlap < 0 then 0 else opts.overlap;
    var chunks, extension := SplitAutoChunks(text, opts.chunkSize, overlap, opts.boundary, e.maxKeywordRunes, opts.isSpace);
    var perChunk: seq<map<Word, seq<int>>> := [];
    for i := 0 to |chunks|
      invariant |perChunk| == i
      invariant forall j :: 0 <= j < i ==> OwnIndex(e.dict, Fold(chunks[j].text, fold), chunks[j].owned, perChunk[j])
    {
      var index := ScanChunk(e, Fold(chunks[i].text, fold), chunks[i].owned);
      perChunk := perChunk + [index];
    }
    var merged := MergeIndexResults(chunks, perChunk);
    ParallelIsSerial(e.dict, text, chunks, extension, fold, perChunk, merged);
    IndexUnique(e.dict, Fold(text, fold), merged, IndexAll(map[], AllMatches(e.dict, Fold(text, fold))));
    forall folded: Word | |folded| == |text| && (forall i :: 0 <= i < |text| ==> folded[i] == fold(text[i])) ensures folded == Fold(text, fold) {
      FoldsEach(text, fold);
    }
    return Index(merged);
  }

  lemma FoldsEach(text: Word, fold: Rune -> Rune)
    ensures |Fold(text, fold)| == |text| && forall i :: 0 <= i < |text| ==> Fold(text, fold)[i] == fold(text[i])
  {
  }

  lemma ReportedOccurs(dict: set<Word>, runes: Word, chunks: seq<Chunk>, extension: nat, fold: Rune -> Rune, perChunk: seq<map<Word, seq<int>>>, k: Word, p: int)
    requires Tiles(runes, chunks, extension, |runes|) && (forall w :: w in dict ==> |w| <= extension + 1) && |perChunk| == |chunks|
    requires forall j :: 0 <= j < |chunks| ==> OwnIndex(dict, Fold(chunks[j].text, fold), chunks[j].owned, perChunk[j])
    ensures Reported(chunks, perChunk, |chunks|, k, p) <==> Occurs(dict, Fold(runes, fold), k, p)
  {
    hide Tiles, Occurs;
    if i :| 0 <= i < |chunks| && k in perChunk[i] && p - chunks[i].offset in perChunk[i][k] {
      assert OwnIndex(dict, Fold(chunks[i].text, fold), chunks[i].owned, perChunk[i]);
      OwnedOccurrence(dict, runes, chunks, extension, i, fold, k, p - chunks[i].offset);
    }
    if Occurs(dict, Fold(runes, fold), k, p) {
      OccurrenceStart(dict, Fold(runes, fold), k, p);
      TilesEnd(runes, chunks, extension);
      var i := OwnerOf(runes, chunks, extension, p, |chunks|);
      OwnedOccurrence(dict, runes, chunks, extension, i, fold, k, p - chunks[i].offset);
      assert OwnIndex(dict, Fold(chunks[i].text, fold), chunks[i].owned, perChunk[i]);
      assert k in perChunk[i];
    }
  }

  lemma OccurrenceStart(dict: set<Word>, text: Word, k: Word, p: int)
    requires Occurs(dict, text, k, p)
    ensures 0 <= p < |text|
  {
  }

  lemma TilesEnd(runes: Word, chunks: seq<Chunk>, extension: nat)
    requires Tiles(runes, chunks, extension, |runes|)
    ensures StartOf(chunks, |chunks|) == |runes|
  {
  }

  lemma ParallelIsSerial(dict: set<Word>, runes: Word, chunks: seq<Chunk>, extension: nat, fold: Rune -> Rune,
                         perChunk: seq<map<Word, seq<int>>>, merged: map<Word, seq<int>>)
    requires Tiles(runes, chunks, extension, |runes|) && (forall w :: w in dict ==> |w| <= extension + 1) && |perChunk| == |chunks|
    requires forall j :: 0 <= j < |chunks| ==> OwnIndex(dict, Fold(chunks[j].text, fold), chunks[j].owned, perChunk[j])
    requires forall k :: k in merged ==> Increasing(merged[k])
    requires forall k, p :: k in merged && p in merged[k] ==> Reported(chunks, perChunk, |chunks|, k, p)
    requires forall k, p :: Reported(chunks, perChunk, |chunks|, k, p) ==> k in merged && p in merged[k]
    requires forall k :: k in merged ==> exists i :: 0 <= i < |chunks| && k in perChunk[i]
    ensures IsIndex(dict, Fold(runes, fold), merged)
  {
    hide Tiles, Occurs, OwnIndex, Reported, Increasing;
    forall k, p ensures Reported(chunks, perChunk, |chunks|, k, p) <==> Occurs(dict, Fold(runes, fold), k, p) {
      ReportedOccurs(dict, runes, chunks, extension, fold, perChunk, k, p);
    }
    forall k | k in merged ensures merged[k] != [] {
      var i :| 0 <= i < |chunks| && k in perChunk[i];
      var p := SomeReport(dict, chunks, fold, perChunk, i, k);
    }
  }

  lemma SomeReport(dict: set<Word>, chunks: seq<Chunk>, fold: Rune -> Rune, perChunk: seq<map<Word, seq<int>>>, i: nat, k: Word) returns (p: int)
    requires i < |chunks| == |perChunk| && k in perChunk[i] && OwnIndex(dict, Fold(chunks[i].text, fold), chunks[i].owned, perChunk[i])
    ensures Reported(chunks, perChunk, |chunks|, k, p)
  {
    var s := perChunk[i][k][0];
    p := s + chunks[i].offset;
    assert p - chunks[i].offset in perChunk[i][k];
  }
}
