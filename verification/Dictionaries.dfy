/** A whole dictionary spread over buckets, and one write to it
    (pkg/acor/versioned_write.go, change and reshardBuckets). */
module Dictionaries {
  import opened Matching
  import opened WordOrder
  import opened BucketStorage

  /** The keywords of each bucket. */
  type Contents = seq<seq<Word>>

  /** Which bucket a keyword belongs to (a prefix of its SHA-256). */
  type Numbering = Word -> nat

  ghost predicate NumberingOk(number: Numbering) { forall w :: number(w) < BUCKETS }

  ghost predicate BucketWords(number: Numbering, ws: seq<Word>, i: nat) {
    Rising(ws) && forall w :: w in ws ==> number(w) == i
  }

  ghost predicate Located(number: Numbering, words: Contents) {
    |words| == BUCKETS && forall i {:trigger words[i]} :: 0 <= i < BUCKETS ==> BucketWords(number, words[i], i)
  }

  /** The keywords of the first `n` buckets. */
  ghost function DictUpTo(words: Contents, n: nat): set<Word>
    requires n <= |words|
  {
    if n == 0 then {} else DictUpTo(words, n - 1) + Members(words[n - 1])
  }

  ghost function Dict(words: Contents): set<Word> { DictUpTo(words, |words|) }

  ghost function TotalUpTo(words: Contents, n: nat): nat
    requires n <= |words|
  {
    if n == 0 then 0 else TotalUpTo(words, n - 1) + |words[n - 1]|
  }

  lemma {:induction false} DictMember(words: Contents, n: nat, w: Word)
    requires n <= |words|
    ensures w in DictUpTo(words, n) <==> exists i :: 0 <= i < n && w in words[i]
  {
    if n > 0 { DictMember(words, n - 1, w); }
  }

  lemma LocatedMember(number: Numbering, words: Contents, n: nat, w: Word)
    requires Located(number, words) && n <= BUCKETS
    ensures w in DictUpTo(words, n) <==> number(w) < n && w in words[number(w)]
  {
    DictMember(words, n, w);
    if i :| 0 <= i < n && w in words[i] { assert BucketWords(number, words[i], i); }
  }

  /** The stored counts add up to the size of the dictionary. */
  lemma {:induction false} TotalIsSize(number: Numbering, words: Contents, n: nat)
    requires Located(number, words) && n <= BUCKETS
    ensures TotalUpTo(words, n) == |DictUpTo(words, n)|
  {
    if n > 0 {
      TotalIsSize(number, words, n - 1);
      assert BucketWords(number, words[n - 1], n - 1);
      var front, ws := DictUpTo(words, n - 1), words[n - 1];
      RisingSize(ws);
      forall w | w in front ensures w !in Members(ws) { LocatedMember(number, words, n - 1, w); }
      assert front !! Members(ws);
    }
  }

  /** Per-bucket gains add up to the gain of the dictionary. */
  lemma DictGain(number: Numbering, a: Contents, b: Contents, n: nat)
    requires Located(number, a) && Located(number, b) && n < BUCKETS
    ensures |DictUpTo(b, n + 1) - DictUpTo(a, n + 1)| == |DictUpTo(b, n) - DictUpTo(a, n)| + |Members(b[n]) - Members(a[n])|
  {
    hide DictUpTo;
    var x, y := DictUpTo(b, n) - DictUpTo(a, n), Members(b[n]) - Members(a[n]);
    forall w ensures w in DictUpTo(b, n + 1) - DictUpTo(a, n + 1) <==> w in x + y {
      Gained(number, a, b, n, w);
    }
    forall w | w in x ensures w !in y { Gained(number, a, b, n, w); }
    assert DictUpTo(b, n + 1) - DictUpTo(a, n + 1) == x + y && x !! y;
  }

  lemma Gained(number: Numbering, a: Contents, b: Contents, n: nat, w: Word)
    requires Located(number, a) && Located(number, b) && n < BUCKETS
    ensures w in DictUpTo(a, n + 1) <==> w in DictUpTo(a, n) || w in a[n]
    ensures w in DictUpTo(b, n + 1) <==> w in DictUpTo(b, n) || w in b[n]
    ensures (w in DictUpTo(a, n) || w in DictUpTo(b, n)) ==> w !in a[n] && w !in b[n]
  {
    LocatedMember(number, a, n, w);
    LocatedMember(number, b, n, w);
    assert BucketWords(number, a[n], n) && BucketWords(number, b[n], n);
  }

  // ----- distributing input -----

  method Distribute(input: seq<Word>, number: Numbering) returns (r: Contents)
    requires Rising(input) && NumberingOk(number)
    ensures |r| == BUCKETS && forall i :: 0 <= i < BUCKETS ==> Rising(r[i]) && forall w :: w in r[i] <==> w in input && number(w) == i
  {
    hide Rising;
    r := seq(BUCKETS, _ => []);
    EmptyRises();
    for n := 0 to |input|
      invariant |r| == BUCKETS
      invariant forall i :: 0 <= i < BUCKETS ==> Rising(r[i]) && forall w :: w in r[i] <==> w in input[..n] && number(w) == i
    {
      assert input[..n + 1] == input[..n] + [input[n]];
      var b := number(input[n]);
      AppendRises(input, n, r[b]);
      r := r[b := r[b] + [input[n]]];
    }
    assert input[..|input|] == input;
  }

  lemma EmptyRises()
    ensures Rising([])
  {
  }

  lemma AppendRises(input: seq<Word>, n: nat, s: seq<Word>)
    requires Rising(input) && n < |input| && Rising(s) && forall w :: w in s ==> w in input[..n]
    ensures Rising(s + [input[n]])
  {
    var t := s + [input[n]];
    forall i | 0 < i < |t| ensures RisesAt(t, i) {
      if i < |s| {
        assert RisesAt(s, i);
      } else {
        var w := s[|s| - 1];
        assert w in s;
        var j :| 0 <= j < n && input[..n][j] == w;
        RisingPairs(input, j, n);
      }
    }
  }

  // ----- layouts -----

  /** One shard is the unsharded layout. */
  function PlaceOf(shards: nat, i: nat): Place
    requires shards > 0
  {
    if shards == 1 then Unsharded else InShard(i % shards)
  }

  /** Every stored chunk is under the digest of its content. */
  ghost predicate Truthful(chunks: Chunks) { forall k {:trigger k in chunks} :: k in chunks ==> k.hash == HashOf(chunks[k]) }

  ghost predicate BucketOk(chunks: Chunks, b: Bucket, ws: seq<Word>, shards: nat, i: nat)
    requires shards > 0
  {
    Holds(chunks, b, ws) && (ws != [] ==> b.place == PlaceOf(shards, i))
  }

  ghost predicate BucketsOk(chunks: Chunks, buckets: seq<Bucket>, words: Contents, shards: nat) {
    && |buckets| == |words| == BUCKETS && shards > 0
    && (forall i {:trigger BucketOk(chunks, buckets[i], words[i], shards, i)} :: 0 <= i < BUCKETS ==> BucketOk(chunks, buckets[i], words[i], shards, i))
  }

  lemma BucketOkMore(chunks: Chunks, stages: Chunks, b: Bucket, ws: seq<Word>, shards: nat, i: nat)
    requires shards > 0 && BucketOk(chunks, b, ws, shards, i) && Truthful(chunks) && Truthful(stages)
    ensures BucketOk(chunks + stages, b, ws, shards, i)
  {
    HoldsMore(chunks, chunks + stages, b, ws);
  }

  /** A bucket prepared in its place of the layout, with its stage writes. */
  method PrepareBucket(words: seq<Word>, size: Word -> nat, shards: nat, i: nat, stages: Chunks, ghost chunks: Chunks)
    returns (b: Bucket, more: Chunks)
    requires Rising(words) && shards > 0 && Truthful(stages)
    ensures Truthful(more) && (Truthful(chunks) ==> BucketOk(chunks + more, b, words, shards, i))
    ensures (forall k :: k in stages ==> k in more && more[k] == stages[k]) && (forall h :: h in b.chunks ==> ChunkFits(h, size))
    ensures b.count == |words| && b.place == PlaceOf(shards, i) && EmptyIsBare(b) && StagedIn(b, more)
  {
    hide Tight, ListSize, ChunkFits, Rising, Flatten, NotFalling;
    b := MakeBucket(words, size);
    b := b.(place := PlaceOf(shards, i));
    more := stages + Staged(b);
    RisingNotFalling(words);
    ChunksRoundTrip(words, b, b.place, chunks + more);
  }

  // ----- one write -----

  /** Buckets to store, chunks to stage, what was counted, and the shards touched. */
  datatype Change = Change(buckets: seq<Bucket>, stages: Chunks, added: nat, removed: nat, changed: set<nat>)

  datatype ChangeResult = Changed(c: Change) | ReadFailed

  /** The stored buckets are readable and hold `words`. */
  ghost predicate Readable(chunks: Chunks, buckets: seq<Bucket>, words: Contents, shards: nat, number: Numbering) {
    Located(number, words) && Truthful(chunks) && BucketsOk(chunks, buckets, words, shards)
  }

  ghost predicate BucketChange(mode: Mode, before: seq<Word>, input: seq<Word>, after: seq<Word>) {
    Members(after) == Outcome(mode, Members(before), Members(input))
  }

  /** What holds after the first `n` buckets of a write. */
  ghost predicate ChangedUpTo(chunks: Chunks, words: Contents, inputs: Contents, mode: Mode, shards: nat,
                              number: Numbering, c: Change, after: Contents, n: nat)
    requires |words| == |inputs| == BUCKETS && n <= BUCKETS
  {
    && Located(number, after) && BucketsOk(chunks + c.stages, c.buckets, after, shards)
    && (forall i {:trigger BucketChange(mode, words[i], inputs[i], after[i])} :: 0 <= i < n ==> BucketChange(mode, words[i], inputs[i], after[i]))
    && (forall i {:trigger after[i]} :: n <= i < BUCKETS ==> after[i] == words[i])
    && c.added == |DictUpTo(after, n) - DictUpTo(words, n)| && c.removed == |DictUpTo(words, n) - DictUpTo(after, n)|
  }

  /** An empty bucket is stored without references. */
  predicate EmptyIsBare(b: Bucket) { b.count <= 0 ==> b.(place := Unsharded) == EMPTY }

  ghost predicate StagedIn(b: Bucket, stages: Chunks) { forall h :: h in b.chunks ==> ChunkKey(b.place, h) in stages }

  /** Only buckets of touched shards are rewritten, and a rewritten bucket refers only to
      chunks staged with it. */
  ghost predicate Touched(buckets: seq<Bucket>, shards: nat, c: Change) {
    && shards > 0 && |c.buckets| == |buckets| == BUCKETS && Truthful(c.stages)
    && (forall i {:trigger c.buckets[i]} :: 0 <= i < BUCKETS && i % shards !in c.changed ==> c.buckets[i] == buckets[i])
    && (forall s :: s in c.changed ==> s < shards)
    && (forall i {:trigger EmptyIsBare(c.buckets[i])} :: 0 <= i < BUCKETS ==> EmptyIsBare(buckets[i]) ==> EmptyIsBare(c.buckets[i]))
    && (forall i {:trigger StagedIn(c.buckets[i], c.stages)} :: 0 <= i < BUCKETS ==> c.buckets[i] == buckets[i] || StagedIn(c.buckets[i], c.stages))
  }

  lemma NothingChanged(chunks: Chunks, buckets: seq<Bucket>, words: Contents, inputs: Contents, mode: Mode, shards: nat, number: Numbering)
    requires Readable(chunks, buckets, words, shards, number) && |inputs| == BUCKETS
    ensures ChangedUpTo(chunks, words, inputs, mode, shards, number, Change(buckets, map[], 0, 0, {}), words, 0)
  {
    assert chunks + map[] == chunks;
  }

  /** A bucket that the input leaves as it is. */
  lemma SkipBucket(chunks: Chunks, words: Contents, inputs: Contents, mode: Mode, shards: nat, number: Numbering, c: Change, after: Contents, n: nat)
    requires |words| == |inputs| == BUCKETS && n < BUCKETS && Located(number, words)
    requires ChangedUpTo(chunks, words, inputs, mode, shards, number, c, after, n) && BucketChange(mode, words[n], inputs[n], words[n])
    ensures ChangedUpTo(chunks, words, inputs, mode, shards, number, c, after, n + 1)
  {
    hide DictUpTo, BucketOk, Located;
    assert after[n] == words[n];
    DictGain(number, words, after, n);
    DictGain(number, after, words, n);
  }

  lemma RewriteBucket(chunks: Chunks, words: Contents, inputs: Contents, mode: Mode, shards: nat, number: Numbering,
                      c: Change, after: Contents, n: nat, ws: seq<Word>, b: Bucket, d: Change)
    requires |words| == |inputs| == |after| == |c.buckets| == BUCKETS && n < BUCKETS && shards > 0 && Located(number, words) && Truthful(chunks) && Truthful(d.stages)
    requires ChangedUpTo(chunks, words, inputs, mode, shards, number, c, after, n) && BucketChange(mode, words[n], inputs[n], ws)
    requires BucketWords(number, ws, n) && d.buckets == c.buckets[n := b] && BucketOk(chunks + d.stages, b, ws, shards, n)
    requires Truthful(c.stages) && forall k :: k in c.stages ==> k in d.stages && d.stages[k] == c.stages[k]
    requires d.added == c.added + |Members(ws) - Members(words[n])| && d.removed == c.removed + |Members(words[n]) - Members(ws)|
    ensures ChangedUpTo(chunks, words, inputs, mode, shards, number, d, after[n := ws], n + 1)
  {
    hide DictUpTo, BucketOk, BucketWords, BucketChange;
    var now := after[n := ws];
    forall i | 0 <= i < BUCKETS ensures BucketOk(chunks + d.stages, d.buckets[i], now[i], shards, i) {
      if i != n {
        assert BucketOk(chunks + c.stages, c.buckets[i], after[i], shards, i);
        assert (chunks + c.stages) + d.stages == chunks + d.stages;
        BucketOkMore(chunks + c.stages, d.stages, c.buckets[i], after[i], shards, i);
      }
    }
    assert Located(number, now);
    SamePrefix(after, now, n);
    DictGain(number, words, now, n);
    DictGain(number, now, words, n);
  }

  lemma {:induction false} SamePrefix(a: Contents, b: Contents, n: nat)
    requires n <= |a| == |b| && forall i :: 0 <= i < n ==> a[i] == b[i]
    ensures DictUpTo(a, n) == DictUpTo(b, n)
  {
    if n > 0 { SamePrefix(a, b, n - 1); }
  }

  /** Bucket by bucket, the write is the set operation on the dictionary. */
  lemma WholeOutcome(words: Contents, input: seq<Word>, inputs: Contents, mode: Mode, number: Numbering, after: Contents)
    requires |inputs| == BUCKETS && Located(number, words) && Located(number, after) && NumberingOk(number)
    requires forall i {:trigger BucketChange(mode, words[i], inputs[i], after[i])} :: 0 <= i < BUCKETS ==> BucketChange(mode, words[i], inputs[i], after[i])
    requires forall i :: 0 <= i < BUCKETS ==> forall w :: w in inputs[i] <==> w in input && number(w) == i
    ensures Dict(after) == Outcome(mode, Dict(words), Members(input))
  {
    forall w ensures w in Dict(after) <==> w in Outcome(mode, Dict(words), Members(input)) {
      var i := number(w);
      LocatedMember(number, words, BUCKETS, w);
      LocatedMember(number, after, BUCKETS, w);
      assert BucketChange(mode, words[i], inputs[i], after[i]);
      assert w in after[i] <==> w in Members(after[i]);
      assert w in words[i] <==> w in Members(words[i]);
      assert w in inputs[i] <==> w in Members(inputs[i]);
    }
  }

  lemma NothingToDo(mode: Mode, before: seq<Word>, input: seq<Word>, after: seq<Word>)
    requires BucketChange(mode, before, input, after) && |Members(after) - Members(before)| == 0 == |Members(before) - Members(after)|
    ensures BucketChange(mode, before, input, before)
  {
    assert Members(after) - Members(before) == {} && Members(before) - Members(after) == {};
    assert Members(after) == Members(before);
  }

  lemma NoInput(mode: Mode, before: seq<Word>, input: seq<Word>)
    requires mode != Replace && input == []
    ensures BucketChange(mode, before, input, before)
  {
  }

  lemma InBucket(mode: Mode, number: Numbering, before: seq<Word>, input: seq<Word>, after: seq<Word>, i: nat)
    requires BucketWords(number, before, i) && (forall w :: w in input ==> number(w) == i) && BucketChange(mode, before, input, after) && Rising(after)
    ensures BucketWords(number, after, i)
  {
    forall w | w in after ensures number(w) == i { assert w in Members(after); }
  }

  /** One bucket of a write; `ok` is false when it cannot be read. */
  method ChangeBucket(chunks: Chunks, buckets: seq<Bucket>, inputs: Contents, mode: Mode, shards: nat, size: Word -> nat, i: nat, c: Change,
                      ghost number: Numbering, ghost words: Contents, ghost after: Contents)
    returns (d: Change, ok: bool, ghost now: Contents)
    requires |inputs| == BUCKETS && i < BUCKETS && Rising(inputs[i]) && (forall w :: w in inputs[i] ==> number(w) == i)
    requires Touched(buckets, shards, c) && |c.buckets| == |buckets| == BUCKETS && forall j :: i <= j < BUCKETS ==> c.buckets[j] == buckets[j]
    requires Readable(chunks, buckets, words, shards, number) ==>
               |words| == BUCKETS && ChangedUpTo(chunks, words, inputs, mode, shards, number, c, after, i)
    ensures Touched(buckets, shards, d) && |d.buckets| == BUCKETS && forall j :: i + 1 <= j < BUCKETS ==> d.buckets[j] == buckets[j]
    ensures Readable(chunks, buckets, words, shards, number) ==>
              ok && |words| == BUCKETS && ChangedUpTo(chunks, words, inputs, mode, shards, number, d, now, i + 1)
  {
    hide Rising, Holds, BucketOk, Located, BucketsOk, DictUpTo, BucketChange, BucketWords, Members, Truthful, Outcome, Touched;
    Truth(buckets, shards, c);
    ghost var good := Readable(chunks, buckets, words, shards, number);
    d, ok, now := c, true, after;
    if mode != Replace && |inputs[i]| == 0 {
      if good { NoInput(mode, words[i], inputs[i]); SkipBucket(chunks, words, inputs, mode, shards, number, c, after, i); }
      return;
    }
    var read := ReadBucket(chunks, buckets[i]);
    if good { ReadsBack(chunks, buckets, words, shards, number, i); }
    if !read.Read? { return c, false, after; }
    var ws, added, removed := ApplyWords(read.words, inputs[i], mode);
    if good { Applied(mode, words[i], inputs[i], ws); }
    if added == 0 && removed == 0 {
      if good { NothingToDo(mode, words[i], inputs[i], ws); SkipBucket(chunks, words, inputs, mode, shards, number, c, after, i); }
      return;
    }
    var b, more := PrepareBucket(ws, size, shards, i, c.stages, chunks);
    d := Change(c.buckets[i := b], more, c.added + added, c.removed + removed, c.changed + {i % shards});
    TouchedMore(buckets, shards, c, i, b, d);
    if good {
      InBucket(mode, number, words[i], inputs[i], ws, i);
      Sizes(number, after);
      RewriteBucket(chunks, words, inputs, mode, shards, number, c, after, i, ws, b, d);
      now := after[i := ws];
    }
  }

  lemma Truth(buckets: seq<Bucket>, shards: nat, c: Change)
    requires Touched(buckets, shards, c)
    ensures Truthful(c.stages) && shards > 0 && |c.buckets| == |buckets| == BUCKETS
  {
  }

  lemma TouchedMore(buckets: seq<Bucket>, shards: nat, c: Change, i: nat, b: Bucket, d: Change)
    requires Touched(buckets, shards, c) && i < BUCKETS && EmptyIsBare(b) && StagedIn(b, d.stages) && Truthful(d.stages)
    requires d.buckets == c.buckets[i := b] && d.changed == c.changed + {i % shards} && forall k :: k in c.stages ==> k in d.stages
    ensures Touched(buckets, shards, d)
  {
    forall j | 0 <= j < BUCKETS ensures EmptyIsBare(buckets[j]) ==> EmptyIsBare(d.buckets[j]) {
      if j != i { assert EmptyIsBare(buckets[j]) ==> EmptyIsBare(c.buckets[j]); }
    }
    forall j | 0 <= j < BUCKETS ensures d.buckets[j] == buckets[j] || StagedIn(d.buckets[j], d.stages) {
      if j != i { assert c.buckets[j] == buckets[j] || StagedIn(c.buckets[j], c.stages); }
    }
  }

  /** Reads every bucket the input touches (all of them for a replacement), applies the
      write and prepares the buckets that change. */
  method ChangeBuckets(chunks: Chunks, buckets: seq<Bucket>, input: seq<Word>, mode: Mode, shards: nat, size: Word -> nat, number: Numbering,
                       ghost words: Contents)
    returns (r: ChangeResult, ghost after: Contents)
    requires Rising(input) && NumberingOk(number) && shards > 0 && |buckets| == BUCKETS
    ensures r.Changed? ==> Touched(buckets, shards, r.c)
    ensures Readable(chunks, buckets, words, shards, number) ==>
              && r.Changed? && Located(number, after) && BucketsOk(chunks + r.c.stages, r.c.buckets, after, shards)
              && (mode == Add ==> Dict(after) == Dict(words) + Members(input))
              && (mode == Remove ==> Dict(after) == Dict(words) - Members(input))
              && (mode == Replace ==> Dict(after) == Members(input))
              && r.c.added == |Dict(after) - Dict(words)| && r.c.removed == |Dict(words) - Dict(after)|
  {
    hide Rising, Located, BucketsOk, DictUpTo, BucketChange, Members, Truthful, NumberingOk, Outcome;
    ghost var good := Readable(chunks, buckets, words, shards, number);
    var inputs := Distribute(input, number);
    var c := Change(buckets, map[], 0, 0, {});
    after := words;
    NoStages();
    if good { Sizes(number, words); NothingChanged(chunks, buckets, words, inputs, mode, shards, number); }
    for i := 0 to BUCKETS
      invariant Touched(buckets, shards, c) && (good ==> |words| == BUCKETS && ChangedUpTo(chunks, words, inputs, mode, shards, number, c, after, i))
      invariant forall j :: i <= j < BUCKETS ==> c.buckets[j] == buckets[j]
    {
      var ok;
      c, ok, after := ChangeBucket(chunks, buckets, inputs, mode, shards, size, i, c, number, words, after);
      if !ok { return ReadFailed, after; }
    }
    r := Changed(c);
    if good {
      Sizes(number, after);
      WholeOutcome(words, input, inputs, mode, number, after);
      Outcomes(Dict(words), Members(input));
    }
  }

  lemma NoStages()
    ensures Truthful(map[])
  {
  }

  lemma Sizes(number: Numbering, words: Contents)
    requires Located(number, words)
    ensures |words| == BUCKETS
  {
  }

  lemma Applied(mode: Mode, before: seq<Word>, input: seq<Word>, after: seq<Word>)
    requires Members(after) == Outcome(mode, Members(before), Members(input))
    ensures BucketChange(mode, before, input, after)
  {
  }

  lemma ReadsBack(chunks: Chunks, buckets: seq<Bucket>, words: Contents, shards: nat, number: Numbering, i: nat)
    requires Readable(chunks, buckets, words, shards, number) && i < BUCKETS
    ensures |buckets| == |words| == BUCKETS && Holds(chunks, buckets[i], words[i]) && BucketWords(number, words[i], i)
  {
    assert BucketOk(chunks, buckets[i], words[i], shards, i);
  }
}
