/** The chunked, bucketed dictionary storage of the versioned collection: splitting a
    bucket into chunks, reading it back, and applying a write
    (pkg/acor/versioned_write.go, pkg/acor/versioned_snapshot.go). */
module BucketStorage {
  import opened Matching
  import opened WordOrder

  const BUCKETS: nat := 4096
  const CHUNK_BYTES: nat := 0x10_0000

  /** A content digest; different contents have different digests. */
  datatype Hash = NoHash | HashOf(words: seq<Word>)

  datatype Place = Unsharded | InShard(n: nat)

  datatype Bucket = Bucket(chunks: seq<Hash>, count: int, checksum: Hash, place: Place)

  const EMPTY := Bucket([], 0, NoHash, Unsharded)

  datatype ChunkKey = ChunkKey(place: Place, hash: Hash)

  /** Stored chunks, decoded. */
  type Chunks = map<ChunkKey, seq<Word>>

  // ----- reading -----

  function WordsOf(h: Hash): seq<Word> { if h.HashOf? then h.words else [] }

  function Flatten(hs: seq<Hash>): seq<Word> {
    if hs == [] then [] else Flatten(hs[..|hs| - 1]) + WordsOf(hs[|hs| - 1])
  }

  predicate ChunkOk(chunks: Chunks, place: Place, h: Hash) {
    h.HashOf? && ChunkKey(place, h) in chunks && chunks[ChunkKey(place, h)] == h.words
  }

  /** Sorted, as the reader checks it. */
  predicate NotFalling(ws: seq<Word>) { forall i :: 0 < i < |ws| ==> CompareWords(ws[i - 1], ws[i]) <= 0 }

  /** The bucket stands for exactly these keywords. */
  ghost predicate Holds(chunks: Chunks, b: Bucket, ws: seq<Word>) {
    && b.count == |ws|
    && (if b.count == 0 then b.chunks == []
        else (forall h :: h in b.chunks ==> ChunkOk(chunks, b.place, h)) && Flatten(b.chunks) == ws && b.checksum == HashOf(ws) && NotFalling(ws))
  }

  datatype ReadResult = Read(words: seq<Word>) | MissingChunk | CorruptData

  /** Reads a bucket through all its checks: it returns words exactly when the bucket
      holds them. */
  method ReadBucket(chunks: Chunks, b: Bucket) returns (r: ReadResult)
    ensures r.Read? ==> Holds(chunks, b, r.words)
    ensures forall ws :: Holds(chunks, b, ws) ==> r == Read(ws)
  {
    if b.count == 0 {
      return if |b.chunks| != 0 then CorruptData else Read([]);
    }
    var words := [];
    for i := 0 to |b.chunks|
      invariant words == Flatten(b.chunks[..i])
      invariant forall h :: h in b.chunks[..i] ==> ChunkOk(chunks, b.place, h)
    {
      assert b.chunks[..i + 1] == b.chunks[..i] + [b.chunks[i]];
      var h := b.chunks[i];
      assert h in b.chunks;
      if ChunkKey(b.place, h) !in chunks { return MissingChunk; }
      var data := chunks[ChunkKey(b.place, h)];
      if HashOf(data) != h { return CorruptData; }
      words := words + data;
    }
    assert b.chunks[..|b.chunks|] == b.chunks;
    if |words| != b.count || HashOf(words) != b.checksum || !NotFalling(words) { return CorruptData; }
    r := Read(words);
  }

  lemma HoldsMore(chunks: Chunks, more: Chunks, b: Bucket, ws: seq<Word>)
    requires Holds(chunks, b, ws) && forall k :: k in chunks ==> k in more && more[k] == chunks[k]
    ensures Holds(more, b, ws)
  {
  }

  // ----- chunking -----

  /** The encoded length of the elements of a list, with commas between them. */
  function BodySize(ws: seq<Word>, size: Word -> nat): nat {
    if ws == [] then 0
    else BodySize(ws[..|ws| - 1], size) + size(ws[|ws| - 1]) + if |ws| > 1 then 1 else 0
  }

  /** The encoded length of a list, with its brackets. */
  function ListSize(ws: seq<Word>, size: Word -> nat): nat { 2 + BodySize(ws, size) }

  ghost predicate ChunkFits(h: Hash, size: Word -> nat) {
    h.HashOf? && h.words != [] && (|h.words| > 1 ==> ListSize(h.words, size) <= CHUNK_BYTES)
  }

  /** No chunk but the last has room for the next word. */
  ghost predicate Tight(hs: seq<Hash>, size: Word -> nat) {
    forall i {:trigger hs[i]} :: 0 < i < |hs| ==> Full(hs[i - 1], WordsOf(hs[i]), size)
  }

  ghost predicate Full(h: Hash, next: seq<Word>, size: Word -> nat) {
    next != [] && ListSize(WordsOf(h) + [next[0]], size) > CHUNK_BYTES
  }

  /** Splits a bucket's words into chunks greedily: every chunk of several words fits 1 MiB,
      and none but the last could have taken one word more. */
  method MakeBucket(words: seq<Word>, size: Word -> nat) returns (b: Bucket)
    ensures b.count == |words| && b.place == Unsharded
    ensures Flatten(b.chunks) == words && (forall h :: h in b.chunks ==> ChunkFits(h, size))
    ensures forall h :: h in b.chunks ==> h.HashOf? && (|h.words| > 1 ==> ListSize(h.words, size) <= 1024 * 1024)
    ensures Tight(b.chunks, size)
    ensures if words == [] then b == EMPTY else b.checksum == HashOf(words)
  {
    hide Flatten, ListSize, ChunkFits, Full, Tight;
    NothingFlat();
    NothingTight(size);
    if words == [] { return EMPTY; }
    var start, total := 0, 2;
    var chunks: seq<Hash> := [];
    EmptyList(size);
    assert words[..0] == [] && words[0..0] == [];
    for i := 0 to |words|
      invariant 0 <= start <= i && (i > 0 ==> start < i)
      invariant Flatten(chunks) == words[..start] && (forall h :: h in chunks ==> ChunkFits(h, size))
      invariant total == ListSize(words[start..i], size) && (i - start > 1 ==> total <= CHUNK_BYTES)
      invariant Tight(chunks, size) && (chunks != [] ==> start < |words| && Full(chunks[|chunks| - 1], words[start..start + 1], size))
    {
      var n := size(words[i]);
      if i > start { n := n + 1; }
      if total + n > CHUNK_BYTES && i > start {
        Flushed(chunks, words, start, i, size);
        StaysTight(chunks, words, start, i, size);
        chunks := chunks + [HashOf(words[start..i])];
        start, total := i, 2;
        assert words[start..i] == [];
        n := size(words[i]);
      }
      SizeSnoc(words, start, i, size);
      total := total + n;
    }
    Flushed(chunks, words, start, |words|, size);
    LastTight(chunks, words, start, |words|, size);
    assert words[..|words|] == words;
    chunks := chunks + [HashOf(words[start..|words|])];
    b := Bucket(chunks, |words|, HashOf(words), Unsharded);
    FitsBound(b.chunks, size);
  }

  lemma NothingTight(size: Word -> nat)
    ensures Tight([], size)
  {
  }

  lemma FitsBound(hs: seq<Hash>, size: Word -> nat)
    requires forall h :: h in hs ==> ChunkFits(h, size)
    ensures forall h :: h in hs ==> h.HashOf? && (|h.words| > 1 ==> ListSize(h.words, size) <= 1024 * 1024)
  {
  }

  /** Whatever begins with the right word makes the last chunk full. */
  lemma LastTight(hs: seq<Hash>, words: seq<Word>, start: nat, i: nat, size: Word -> nat)
    requires Tight(hs, size) && start < i <= |words| && (hs != [] ==> Full(hs[|hs| - 1], words[start..start + 1], size))
    ensures Tight(hs + [HashOf(words[start..i])], size)
  {
    var all := hs + [HashOf(words[start..i])];
    forall x | 0 < x < |all| ensures Full(all[x - 1], WordsOf(all[x]), size) {
      if x < |hs| { assert all[x] == hs[x]; }
    }
  }

  lemma StaysTight(hs: seq<Hash>, words: seq<Word>, start: nat, i: nat, size: Word -> nat)
    requires Tight(hs, size) && start < i < |words| && (hs != [] ==> Full(hs[|hs| - 1], words[start..start + 1], size))
    requires ListSize(words[start..i], size) + size(words[i]) + 1 > CHUNK_BYTES
    ensures Tight(hs + [HashOf(words[start..i])], size) && Full(HashOf(words[start..i]), words[i..i + 1], size)
  {
    LastTight(hs, words, start, i, size);
    SizeSnoc(words, start, i, size);
    assert words[start..i] + [words[i..i + 1][0]] == words[start..i + 1];
  }

  lemma NothingFlat()
    ensures Flatten([]) == []
  {
  }

  lemma EmptyList(size: Word -> nat)
    ensures ListSize([], size) == 2
  {
  }

  lemma SizeSnoc(ws: seq<Word>, start: nat, i: nat, size: Word -> nat)
    requires start <= i < |ws|
    ensures ListSize(ws[start..i + 1], size) == ListSize(ws[start..i], size) + size(ws[i]) + if i > start then 1 else 0
  {
    assert ws[start..i + 1][..i - start] == ws[start..i];
  }

  lemma Flushed(chunks: seq<Hash>, words: seq<Word>, start: nat, i: nat, size: Word -> nat)
    requires start < i <= |words| && Flatten(chunks) == words[..start] && forall h :: h in chunks ==> ChunkFits(h, size)
    requires i - start > 1 ==> ListSize(words[start..i], size) <= CHUNK_BYTES
    ensures var all := chunks + [HashOf(words[start..i])];
            Flatten(all) == words[..i] && forall h :: h in all ==> ChunkFits(h, size)
  {
    FlattenSnoc(chunks, HashOf(words[start..i]));
    assert words[..i] == words[..start] + words[start..i];
  }

  lemma FlattenSnoc(hs: seq<Hash>, h: Hash)
    ensures Flatten(hs + [h]) == Flatten(hs) + WordsOf(h)
  {
    assert (hs + [h])[..|hs|] == hs;
  }

  /** The stage writes of a bucket: each chunk under its digest. */
  function Staged(b: Bucket): Chunks {
    map h | h in b.chunks && h.HashOf? :: ChunkKey(b.place, h) := h.words
  }

  /** Chunking, staging anywhere and reading back is the identity. */
  lemma ChunksRoundTrip(words: seq<Word>, b: Bucket, place: Place, chunks: Chunks)
    requires NotFalling(words) && b.count == |words| && Flatten(b.chunks) == words
    requires if words == [] then b.chunks == [] else b.checksum == HashOf(words)
    requires forall h :: h in b.chunks ==> h.HashOf?
    requires forall k :: k in Staged(b.(place := place)) ==> k in chunks && chunks[k] == Staged(b.(place := place))[k]
    ensures Holds(chunks, b.(place := place), words)
  {
    forall h | h in b.chunks ensures ChunkOk(chunks, place, h) {
      assert ChunkKey(place, h) in Staged(b.(place := place));
    }
  }

  lemma RisingNotFalling(ws: seq<Word>)
    requires Rising(ws)
    ensures NotFalling(ws)
  {
    forall i | 0 < i < |ws| ensures CompareWords(ws[i - 1], ws[i]) <= 0 { assert RisesAt(ws, i); }
  }

  // ----- normalizing input -----

  datatype NormalizeResult = Normalized(words: seq<Word>) | EmptyKeyword

  /** Trims and folds every keyword, refuses an empty one, and sorts without repeats:
      exactly the folded keywords, strictly increasing. */
  method Normalize(words: seq<Word>, fold: Word -> Word) returns (r: NormalizeResult)
    ensures r.EmptyKeyword? <==> exists i :: 0 <= i < |words| && fold(words[i]) == []
    ensures r.Normalized? ==> Rising(r.words) && forall w :: w in r.words <==> exists i :: 0 <= i < |words| && fold(words[i]) == w
  {
    var all: set<Word> := {};
    for n := 0 to |words|
      invariant forall w :: w in all <==> exists i :: 0 <= i < n && fold(words[i]) == w
      invariant forall i :: 0 <= i < n ==> fold(words[i]) != []
    {
      var w := fold(words[n]);
      if w == [] { return EmptyKeyword; }
      all := all + {w};
    }
    var sorted := SortWords(all);
    r := Normalized(sorted);
  }

  // ----- applying a write to one bucket -----

  datatype Mode = Add | Remove | Replace

  function Members(ws: seq<Word>): set<Word> { set w | w in ws }

  /** Set union, difference or replacement. */
  function Outcome(mode: Mode, before: set<Word>, input: set<Word>): set<Word> {
    match mode
    case Add => before + input
    case Remove => before - input
    case Replace => input
  }

  /** The three modes, spelled out. */
  lemma Outcomes(before: set<Word>, input: set<Word>)
    ensures Outcome(Add, before, input) == before + input && Outcome(Remove, before, input) == before - input
    ensures Outcome(Replace, before, input) == input
  {
  }

  /** Applies a write to one bucket's words and counts what it changed. */
  method ApplyWords(before: seq<Word>, input: seq<Word>, mode: Mode) returns (after: seq<Word>, added: nat, removed: nat)
    requires Rising(input)
    ensures Rising(after) && Members(after) == Outcome(mode, Members(before), Members(input))
    ensures mode == Add ==> Members(after) == Members(before) + Members(input)
    ensures mode == Remove ==> Members(after) == Members(before) - Members(input)
    ensures mode == Replace ==> Members(after) == Members(input)
    ensures added == |Members(after) - Members(before)| && removed == |Members(before) - Members(after)|
    ensures Rising(before) ==> |after| == |before| + added - removed
  {
    hide Rising, Members;
    Outcomes(Members(before), Members(input));
    if mode == Replace {
      added, removed := Compare(before, input);
      if Rising(before) { SizesAgree(before, input); }
      return input, added, removed;
    }
    var all;
    all, added, removed := ApplyEach(Members(before), input, mode);
    after := SortWords(all);
    SameMembers(after, all);
    if Rising(before) { SizesAgree(before, after); }
  }

  ghost predicate Counted(mode: Mode, before: set<Word>, seen: set<Word>, all: set<Word>, added: nat, removed: nat) {
    all == Outcome(mode, before, seen) && added == |all - before| && removed == |before - all|
  }

  /** Adds or removes the words one by one, counting the effective ones. */
  method ApplyEach(before: set<Word>, input: seq<Word>, mode: Mode) returns (all: set<Word>, added: nat, removed: nat)
    requires mode != Replace
    ensures all == Outcome(mode, before, Members(input)) && added == |all - before| && removed == |before - all|
  {
    hide Members, Counted;
    all, added, removed := before, 0, 0;
    NoMembers();
    CountNothing(mode, before);
    for i := 0 to |input|
      invariant Counted(mode, before, Members(input[..i]), all, added, removed)
    {
      MembersSnoc(input, i);
      var w := input[i];
      CountWord(mode, before, Members(input[..i]), all, added, removed, w);
      if mode == Add && w !in all {
        all := all + {w};
        added := added + 1;
      }
      if mode == Remove && w in all {
        all := all - {w};
        removed := removed + 1;
      }
    }
    assert input[..|input|] == input;
    CountResult(mode, before, Members(input), all, added, removed);
  }

  lemma CountNothing(mode: Mode, before: set<Word>)
    requires mode != Replace
    ensures Counted(mode, before, {}, before, 0, 0)
  {
    assert before - before == {};
  }

  lemma CountWord(mode: Mode, before: set<Word>, seen: set<Word>, all: set<Word>, added: nat, removed: nat, w: Word)
    requires mode != Replace && Counted(mode, before, seen, all, added, removed)
    ensures mode == Add && w !in all ==> Counted(mode, before, seen + {w}, all + {w}, added + 1, removed)
    ensures mode == Remove && w in all ==> Counted(mode, before, seen + {w}, all - {w}, added, removed + 1)
    ensures (mode == Add && w in all) || (mode == Remove && w !in all) ==> Counted(mode, before, seen + {w}, all, added, removed)
  {
    hide Outcome;
    OutcomeStep(mode, before, seen, w);
    if mode == Add && w !in all { CountNew(all, before, w); }
    if mode == Remove && w in all { CountGone(all, before, w); }
    if mode == Add && w in all { assert all + {w} == all; }
    if mode == Remove && w !in all { assert all - {w} == all; }
  }

  lemma CountResult(mode: Mode, before: set<Word>, seen: set<Word>, all: set<Word>, added: nat, removed: nat)
    requires Counted(mode, before, seen, all, added, removed)
    ensures all == Outcome(mode, before, seen) && added == |all - before| && removed == |before - all|
  {
  }

  lemma OutcomeStep(mode: Mode, before: set<Word>, seen: set<Word>, w: Word)
    requires mode != Replace
    ensures Outcome(mode, before, {}) == before
    ensures Outcome(mode, before, seen + {w}) ==
              if mode == Add then Outcome(mode, before, seen) + {w} else Outcome(mode, before, seen) - {w}
    ensures if mode == Add then before <= Outcome(mode, before, seen) else Outcome(mode, before, seen) <= before
  {
  }

  lemma NoMembers()
    ensures Members([]) == {}
  {
  }

  lemma SameMembers(ws: seq<Word>, all: set<Word>)
    requires forall w :: w in ws <==> w in all
    ensures Members(ws) == all
  {
  }

  lemma MembersSnoc(s: seq<Word>, i: nat)
    requires i < |s|
    ensures Members(s[..i + 1]) == Members(s[..i]) + {s[i]}
  {
    assert s[..i + 1] == s[..i] + [s[i]];
  }

  lemma CountNew(all: set<Word>, before: set<Word>, w: Word)
    requires before <= all && w !in all
    ensures |all + {w} - before| == |all - before| + 1 && before - (all + {w}) == before - all
  {
    assert all + {w} - before == (all - before) + {w};
  }

  lemma CountGone(all: set<Word>, before: set<Word>, w: Word)
    requires all <= before && w in all
    ensures |before - (all - {w})| == |before - all| + 1 && all - {w} - before == all - before
  {
    assert before - (all - {w}) == (before - all) + {w};
  }

  /** Counts for a replacement: strikes the kept words from the old set. */
  method Compare(before: seq<Word>, input: seq<Word>) returns (added: nat, removed: nat)
    requires Rising(input)
    ensures added == |Members(input) - Members(before)| && removed == |Members(before) - Members(input)|
  {
    hide Members, Rising;
    var left := Members(before);
    added := 0;
    NoMembers();
    for i := 0 to |input|
      invariant left == Members(before) - Members(input[..i]) && added == |Members(input[..i]) - Members(before)|
    {
      MembersSnoc(input, i);
      NotYet(input, i);
      var w := input[i];
      if w !in left {
        CountAdded(Members(input[..i]), Members(before), w);
        added := added + 1;
      } else {
        assert Members(input[..i]) + {w} - Members(before) == Members(input[..i]) - Members(before);
        left := left - {w};
      }
    }
    assert input[..|input|] == input;
    removed := |left|;
  }

  lemma CountAdded(seen: set<Word>, before: set<Word>, w: Word)
    requires w !in seen && w !in before
    ensures |seen + {w} - before| == |seen - before| + 1
  {
    assert seen + {w} - before == (seen - before) + {w};
  }

  lemma NotYet(s: seq<Word>, i: nat)
    requires Rising(s) && i < |s|
    ensures s[i] !in Members(s[..i])
  {
    forall j | 0 <= j < i ensures s[j] != s[i] { RisingPairs(s, j, i); }
  }

  lemma SizesAgree(a: seq<Word>, b: seq<Word>)
    requires Rising(a) && Rising(b)
    ensures |b| == |a| + |Members(b) - Members(a)| - |Members(a) - Members(b)|
  {
    RisingSize(a);
    RisingSize(b);
    var x, y := Members(a), Members(b);
    assert x == (x - y) + (x * y) && y == (y - x) + (x * y);
  }
}
