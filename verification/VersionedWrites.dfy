/** Whole writes to the versioned collection: from the expected generation's documents
    to those of the next one (pkg/acor/versioned_write.go, change, Reshard and
    prepareCommit). */
module VersionedWrites {
  import opened Matching
  import opened WordOrder
  import opened BucketStorage
  import opened Dictionaries
  import opened Manifests

  /** A stored generation and the dictionary it stands for. */
  ghost predicate Represents(st: Store, m: Manifest, words: Contents, number: Numbering) {
    Describes(st, m.version, m) && Readable(st.chunks, m.buckets, words, m.shards, number)
  }

  /** A generation's count is the size of its dictionary. */
  lemma CountIsDictionarySize(st: Store, m: Manifest, words: Contents, number: Numbering)
    requires Represents(st, m, words, number)
    ensures m.count == |Dict(words)|
  {
    CountIsTotal(st.chunks, m.buckets, words, m.shards, BUCKETS);
    TotalIsSize(number, words, BUCKETS);
  }

  ghost predicate FreshId(st: Store, id: nat) { id !in st.gens && forall k :: k in st.shardDocs ==> k.id != id }

  /** Nothing stored is changed. */
  ghost predicate Extends(st: Store, more: Store) {
    && (forall k :: k in st.gens ==> k in more.gens && more.gens[k] == st.gens[k])
    && (forall k :: k in st.shardDocs ==> k in more.shardDocs && more.shardDocs[k] == st.shardDocs[k])
    && (forall k :: k in st.chunks ==> k in more.chunks && (Truthful(st.chunks) ==> more.chunks[k] == st.chunks[k]))
  }

  function Norm(buckets: BucketArray): BucketArray {
    seq(BUCKETS, i requires 0 <= i < BUCKETS => if buckets[i].count > 0 then buckets[i] else EMPTY)
  }

  lemma NormReadable(chunks: Chunks, buckets: BucketArray, words: Contents, n: nat)
    requires BucketsOk(chunks, buckets, words, n)
    ensures BucketsOk(chunks, Norm(buckets), words, n) && Normal(Norm(buckets), n)
  {
    var norm := Norm(buckets);
    forall i | 0 <= i < BUCKETS
      ensures BucketOk(chunks, norm[i], words[i], n, i)
      ensures if norm[i].count > 0 then norm[i].place == PlaceOf(n, i) && RefsOk(norm[i]) else norm[i] == EMPTY
    {
      assert BucketOk(chunks, buckets[i], words[i], n, i);
      NothingFlat();
    }
  }

  lemma {:induction false} NormCount(buckets: BucketArray, u: nat)
    requires u <= BUCKETS
    ensures CountUpTo(Norm(buckets), u) == CountUpTo(buckets, u)
  {
    if u > 0 { NormCount(buckets, u - 1); }
  }

  lemma NormShard(docs: map<ShardKey, ShardDoc>, id: nat, s: nat, n: nat, buckets: BucketArray)
    requires n > 0 && ShardMatches(docs, id, s, n, buckets)
    ensures ShardMatches(docs, id, s, n, Norm(buckets))
  {
    assert Entries(Norm(buckets), s, n, BUCKETS) == Entries(buckets, s, n, BUCKETS);
    NormOwn(buckets, s, n, BUCKETS);
  }

  lemma {:induction false} NormOwn(buckets: BucketArray, s: nat, n: nat, u: nat)
    requires n > 0 && u <= BUCKETS
    ensures OwnCount(Norm(buckets), s, n, u) == OwnCount(buckets, s, n, u)
  {
    if u > 0 { NormOwn(buckets, s, n, u - 1); }
  }

  /** The unchanged shards of the next manifest keep matching documents. */
  ghost predicate KeptShards(st: Store, next: Manifest, changed: set<nat>) {
    && next.shards > 0 && |next.ids| == (if next.shards == 1 then 0 else next.shards)
    && (next.shards > 1 ==> forall s {:trigger next.ids[s]} :: 0 <= s < next.shards && s !in changed ==>
          ShardMatches(st.shardDocs, next.ids[s], s, next.shards, next.buckets))
  }

  /** The manifest that readers load after `next` was written. */
  function Published(next: Manifest, changed: set<nat>): Manifest {
    next.(buckets := Norm(next.buckets), ids := if next.shards == 1 then next.ids else NewIds(next.ids, changed, next.version))
  }

  /** Writes the documents of `next` and its staged chunks. */
  method PutManifest(st: Store, next: Manifest, changed: set<nat>, stages: Chunks, ghost words: Contents, ghost number: Numbering)
    returns (more: Store, ghost m: Manifest)
    requires next.shards > 0
    ensures Truthful(stages) ==> Extends(st, more) || !FreshId(st, next.version)
    ensures && FreshId(st, next.version) && KeptShards(st, next, changed) && ValidShardCount(next.shards) && next.sequence > 0
            && next.count == CountUpTo(next.buckets, BUCKETS) && (forall i :: 0 <= i < BUCKETS ==> EmptyIsBare(next.buckets[i]))
            && Truthful(st.chunks) && Truthful(stages) && Located(number, words) && BucketsOk(st.chunks + stages, next.buckets, words, next.shards) ==>
              Represents(more, m, words, number) && m == Published(next, changed)
  {
    hide Located, BucketsOk, CountUpTo, Truthful, KeptShards, FreshId, EmptyIsBare;
    var doc, docs, ids := NextManifest(next, changed, next.version);
    more := Store(st.gens[next.version := doc], st.shardDocs + docs, st.chunks + stages);
    m := Published(next, changed);
    if FreshId(st, next.version) && Truthful(stages) { StoreGrows(st, more, next, doc, docs, changed, stages); }
    if && FreshId(st, next.version) && KeptShards(st, next, changed) && ValidShardCount(next.shards) && next.sequence > 0
       && next.count == CountUpTo(next.buckets, BUCKETS) && (forall i :: 0 <= i < BUCKETS ==> EmptyIsBare(next.buckets[i]))
       && Truthful(st.chunks) && Truthful(stages) && Located(number, words) && BucketsOk(st.chunks + stages, next.buckets, words, next.shards)
    {
      NormReadable(st.chunks + stages, next.buckets, words, next.shards);
      NormCount(next.buckets, BUCKETS);
      NextDescribed(st, more, next, m, changed, docs);
      BothTruthful(st.chunks, stages);
    }
  }

  lemma BothTruthful(a: Chunks, b: Chunks)
    requires Truthful(a) && Truthful(b)
    ensures Truthful(a + b)
  {
  }

  lemma StoreGrows(st: Store, more: Store, next: Manifest, doc: GenDoc, docs: map<ShardKey, ShardDoc>, changed: set<nat>, stages: Chunks)
    requires FreshId(st, next.version) && Truthful(stages) && next.shards > 0
    requires next.shards == 1 ==> docs == map[]
    requires next.shards > 1 ==> WrittenFor(docs, changed, next.version, next.shards, next.buckets)
    requires more == Store(st.gens[next.version := doc], st.shardDocs + docs, st.chunks + stages)
    ensures Extends(st, more)
  {
  }

  lemma NextDescribed(st: Store, more: Store, next: Manifest, m: Manifest, changed: set<nat>, docs: map<ShardKey, ShardDoc>)
    requires FreshId(st, next.version) && KeptShards(st, next, changed) && ValidShardCount(next.shards) && next.sequence > 0
    requires next.count == CountUpTo(Norm(next.buckets), BUCKETS) && Normal(Norm(next.buckets), next.shards)
    requires forall i :: 0 <= i < BUCKETS ==> EmptyIsBare(next.buckets[i])
    requires m == next.(buckets := Norm(next.buckets), ids := m.ids) && more.shardDocs == st.shardDocs + docs
    requires next.shards == 1 ==> m.ids == next.ids && more.gens == st.gens[next.version := PlainDoc(next.version, next.sequence, Bared(next.buckets), next.count)]
    requires next.shards > 1 ==>
               && more.gens == st.gens[next.version := GlobalDoc(next.version, next.sequence, next.shards, m.ids, next.count)]
               && m.ids == NewIds(next.ids, changed, next.version) && WrittenFor(docs, changed, next.version, next.shards, next.buckets)
    ensures Describes(more, next.version, m)
  {
    hide CountUpTo, OwnCount, Entries;
    if next.shards == 1 {
      PlainNorm(next.buckets);
    } else {
      forall s | 0 <= s < next.shards ensures ShardMatches(more.shardDocs, m.ids[s], s, next.shards, m.buckets) {
        if s in changed {
          assert ShardMatches(docs, next.version, s, next.shards, next.buckets);
        } else {
          assert ShardMatches(st.shardDocs, next.ids[s], s, next.shards, next.buckets);
        }
        NormShard(more.shardDocs, m.ids[s], s, next.shards, next.buckets);
      }
    }
  }

  lemma PlainNorm(buckets: BucketArray)
    requires Normal(Norm(buckets), 1) && forall i :: 0 <= i < BUCKETS ==> EmptyIsBare(buckets[i])
    ensures Bared(buckets) == Norm(buckets)
  {
    forall i | 0 <= i < BUCKETS ensures Bared(buckets)[i] == Norm(buckets)[i] {
      assert Norm(buckets)[i] == Norm(buckets)[i];
      assert EmptyIsBare(buckets[i]);
    }
  }

  // ----- changing the dictionary -----

  datatype WriteResult = Written(st: Store, version: nat, added: nat, removed: nat) | Failed

  /** The manifest a change prepares. */
  function NextManifestOf(m: Manifest, id: nat, c: Change): Manifest
    requires |c.buckets| == BUCKETS
  {
    Manifest(id, m.sequence + 1, c.buckets, m.count + c.added - c.removed, m.shards, m.ids)
  }

  ghost predicate EmptiesBare(buckets: seq<Bucket>) {
    |buckets| == BUCKETS && forall i :: 0 <= i < BUCKETS ==> EmptyIsBare(buckets[i])
  }

  /** Add, remove or replace against an expected generation.  A write that changes
      nothing keeps the version; any other becomes the next generation, and what can
      then be loaded is exactly the set operation on the dictionary. */
  method ChangeCollection(st: Store, v: nat, input: seq<Word>, mode: Mode, id: nat, size: Word -> nat, number: Numbering,
                          ghost m: Manifest, ghost words: Contents)
    returns (r: WriteResult, ghost now: Manifest, ghost after: Contents, ghost c: Change)
    requires Rising(input) && NumberingOk(number)
    ensures Represents(st, m, words, number) && m.version == v && FreshId(st, id) ==>
              && r.Written? && Extends(st, r.st) && Represents(r.st, now, after, number) && now.version == r.version
              && (mode == Add ==> Dict(after) == Dict(words) + Members(input))
              && (mode == Remove ==> Dict(after) == Dict(words) - Members(input))
              && (mode == Replace ==> Dict(after) == Members(input))
              && r.added == |Dict(after) - Dict(words)| && r.removed == |Dict(words) - Dict(after)|
              && now.count == |Dict(after)| == m.count + r.added - r.removed && now.shards == m.shards
              && (if r.added == 0 && r.removed == 0 then now == m && r.st == st
                  else now.version == id && now.sequence == m.sequence + 1)
              && (now != m ==> Touched(m.buckets, m.shards, c) && now == Published(NextManifestOf(m, id, c), c.changed) && EmptiesBare(c.buckets))
  {
    hide Rising, Located, BucketsOk, CountUpTo, Truthful, DictUpTo, Members, Outcome, Normal, Matches, ValidShardCount, FreshId, NumberingOk, EmptyIsBare;
    ghost var good := Represents(st, m, words, number) && m.version == v && FreshId(st, id);
    now, after, c := m, words, Change([], map[], 0, 0, {});
    var loaded := LoadManifest(st, v, m);
    if !loaded.Loaded? { return Failed, now, after, c; }
    var before := loaded.m;
    var change;
    change, after := ChangeBuckets(st.chunks, before.buckets, input, mode, before.shards, size, number, words);
    if !change.Changed? { return Failed, now, after, c; }
    var d := change.c;
    c := d;
    if good { CountIsDictionarySize(st, m, words, number); }
    if d.added == 0 && d.removed == 0 {
      if good { Untouched(mode, words, after); after := words; ExtendsSelf(st); }
      return Written(st, v, 0, 0), now, after, c;
    }
    var next := NextManifestOf(before, id, d);
    if good {
      NewCount(st.chunks + d.stages, d.buckets, words, after, before.shards, number);
      KeepsRest(st, m, d, next);
    }
    var more;
    more, now := PutManifest(st, next, d.changed, d.stages, after, number);
    if before.shards > 1 {
      var check := LoadManifest(more, id, now);
      if !check.Loaded? { return Failed, now, after, c; }
    }
    r := Written(more, id, d.added, d.removed);
  }

  lemma ExtendsSelf(st: Store)
    ensures Extends(st, st)
  {
  }

  lemma Untouched(mode: Mode, words: Contents, after: Contents)
    requires |Dict(after) - Dict(words)| == 0 == |Dict(words) - Dict(after)|
    ensures Dict(after) == Dict(words)
  {
    assert Dict(after) - Dict(words) == {} && Dict(words) - Dict(after) == {};
  }

  lemma NewCount(chunks: Chunks, buckets: BucketArray, words: Contents, after: Contents, n: nat, number: Numbering)
    requires BucketsOk(chunks, buckets, after, n) && Located(number, after)
    ensures CountUpTo(buckets, BUCKETS) == |Dict(after)|
    ensures |Dict(after)| == |Dict(words)| + |Dict(after) - Dict(words)| - |Dict(words) - Dict(after)|
  {
    CountIsTotal(chunks, buckets, after, n, BUCKETS);
    TotalIsSize(number, after, BUCKETS);
    var x, y := Dict(words), Dict(after);
    assert x == (x - y) + (x * y) && y == (y - x) + (x * y);
  }

  lemma KeepsRest(st: Store, m: Manifest, c: Change, next: Manifest)
    requires Describes(st, m.version, m) && Touched(m.buckets, m.shards, c)
    requires next.buckets == c.buckets && next.shards == m.shards && next.ids == m.ids
    ensures KeptShards(st, next, c.changed) && forall i :: 0 <= i < BUCKETS ==> EmptyIsBare(next.buckets[i])
  {
    hide OwnCount, Entries;
    forall i | 0 <= i < BUCKETS ensures EmptyIsBare(next.buckets[i]) {
      assert m.buckets[i] == m.buckets[i];
      assert EmptyIsBare(m.buckets[i]);
      assert EmptyIsBare(c.buckets[i]);
    }
    if m.shards > 1 {
      forall s | 0 <= s < m.shards && s !in c.changed ensures ShardMatches(st.shardDocs, m.ids[s], s, m.shards, next.buckets) {
        assert ShardMatches(st.shardDocs, m.ids[s], s, m.shards, m.buckets);
        SameShard(st.shardDocs, m.ids[s], s, m.shards, m.buckets, next.buckets);
      }
    }
  }

  // ----- resharding -----

  /** Prepares every bucket in the target layout. */
  method ReshardBuckets(chunks: Chunks, buckets: BucketArray, target: nat, size: Word -> nat, ghost words: Contents, ghost n: nat, ghost number: Numbering)
    returns (next: seq<Bucket>, stages: Chunks, ok: bool)
    requires target > 0
    ensures |next| == BUCKETS && Truthful(stages) && forall i :: 0 <= i < BUCKETS ==> EmptyIsBare(next[i]) && StagedIn(next[i], stages)
    ensures Readable(chunks, buckets, words, n, number) ==> ok && BucketsOk(chunks + stages, next, words, target)
  {
    hide Holds, BucketOk, Located, BucketsOk, Truthful, BucketWords, Rising, NotFalling;
    next, stages, ok := seq(BUCKETS, _ => EMPTY), map[], false;
    ghost var good := Readable(chunks, buckets, words, n, number);
    NoStages();
    if good { Sizes(number, words); }
    for i := 0 to BUCKETS
      invariant |next| == BUCKETS && Truthful(stages) && forall j :: 0 <= j < BUCKETS ==> EmptyIsBare(next[j]) && StagedIn(next[j], stages)
      invariant good ==> |words| == BUCKETS && forall j {:trigger words[j]} :: 0 <= j < i ==> BucketOk(chunks + stages, next[j], words[j], target, j)
    {
      var read := ReadBucket(chunks, buckets[i]);
      if good { ReadsBack(chunks, buckets, words, n, number, i); Rises(number, words[i], i); }
      if !read.Read? { return; }
      var b, more := PrepareRead(read.words, size, target, i, stages, chunks);
      if good { Restaged(chunks, stages, more, next, words, target, i); }
      next := next[i := b];
      stages := more;
    }
    ok := true;
    if good { AllResharded(chunks + stages, next, words, target); }
  }

  lemma Rises(number: Numbering, ws: seq<Word>, i: nat)
    requires BucketWords(number, ws, i)
    ensures Rising(ws)
  {
  }

  /** An empty bucket stays out of the shards. */
  method PrepareRead(ws: seq<Word>, size: Word -> nat, target: nat, i: nat, stages: Chunks, ghost chunks: Chunks) returns (b: Bucket, more: Chunks)
    requires target > 0 && Truthful(stages)
    ensures Truthful(more) && EmptyIsBare(b) && StagedIn(b, more) && (forall k :: k in stages ==> k in more && more[k] == stages[k])
    ensures Rising(ws) && Truthful(chunks) ==> BucketOk(chunks + more, b, ws, target, i)
  {
    hide Tight, ListSize, ChunkFits, Rising, Flatten, NotFalling;
    b := MakeBucket(ws, size);
    more := stages;
    if b.count > 0 {
      b := b.(place := PlaceOf(target, i));
      more := stages + Staged(b);
      if Rising(ws) && Truthful(chunks) {
        RisingNotFalling(ws);
        ChunksRoundTrip(ws, b, b.place, chunks + more);
      }
    }
  }

  lemma Restaged(chunks: Chunks, stages: Chunks, more: Chunks, next: seq<Bucket>, words: Contents, target: nat, n: nat)
    requires |next| == |words| == BUCKETS && n <= BUCKETS && target > 0 && Truthful(chunks) && Truthful(stages) && Truthful(more)
    requires forall k :: k in stages ==> k in more && more[k] == stages[k]
    requires forall j {:trigger words[j]} :: 0 <= j < n ==> BucketOk(chunks + stages, next[j], words[j], target, j)
    ensures forall j {:trigger words[j]} :: 0 <= j < n ==> BucketOk(chunks + more, next[j], words[j], target, j)
  {
    hide BucketOk;
    forall j | 0 <= j < n ensures BucketOk(chunks + more, next[j], words[j], target, j) {
      assert words[j] == words[j];
      assert (chunks + stages) + more == chunks + more;
      BucketOkMore(chunks + stages, more, next[j], words[j], target, j);
    }
  }

  lemma AllResharded(chunks: Chunks, next: seq<Bucket>, words: Contents, target: nat)
    requires |next| == |words| == BUCKETS && target > 0
    requires forall j {:trigger words[j]} :: 0 <= j < BUCKETS ==> BucketOk(chunks, next[j], words[j], target, j)
    ensures BucketsOk(chunks, next, words, target)
  {
    hide BucketOk;
    forall i | 0 <= i < BUCKETS ensures BucketOk(chunks, next[i], words[i], target, i) { assert words[i] == words[i]; }
  }

  /** Changes the layout and nothing else: the new generation holds the same keywords,
      bucket by bucket. */
  method Reshard(st: Store, v: nat, target: nat, id: nat, size: Word -> nat, ghost number: Numbering, ghost m: Manifest, ghost words: Contents)
    returns (r: WriteResult, ghost now: Manifest, ghost c: Change)
    ensures !ValidShardCount(target) ==> r.Failed?
    ensures ValidShardCount(target) && Represents(st, m, words, number) && m.version == v && FreshId(st, id) ==>
              && r.Written? && Extends(st, r.st) && Represents(r.st, now, words, number) && now.version == r.version
              && now.shards == target && now.count == m.count && r.added == 0 && r.removed == 0
              && (target != m.shards ==> now.version == id && now.sequence == m.sequence + 1)
              && (if target == m.shards then now == m
                  else EmptiesBare(c.buckets) && AllStaged(c) && now == Published(ReshardedOf(m, id, target, c), c.changed) && AllChanged(target, c.changed))
  {
    hide Located, BucketsOk, CountUpTo, Truthful, DictUpTo, Normal, Matches, ValidShardCount, FreshId, EmptyIsBare;
    now, c := m, Change([], map[], 0, 0, {});
    if !ValidShardCount(target) { return Failed, now, c; }
    SomeShard(target);
    ghost var good := Represents(st, m, words, number) && m.version == v && FreshId(st, id);
    var loaded := LoadManifest(st, v, m);
    if !loaded.Loaded? { return Failed, now, c; }
    var before := loaded.m;
    if before.shards == target {
      ExtendsSelf(st);
      return Written(st, v, 0, 0), now, c;
    }
    var buckets, stages, ok := ReshardBuckets(st.chunks, before.buckets, target, size, words, m.shards, number);
    if !ok { return Failed, now, c; }
    var ids, changed := AllShards(target);
    c := Change(buckets, stages, 0, 0, changed);
    var next := Manifest(id, before.sequence + 1, buckets, before.count, target, ids);
    if good {
      CountIsDictionarySize(st, m, words, number);
      NewCount(st.chunks + stages, buckets, words, words, target, number);
      assert Dict(words) - Dict(words) == {};
      NoneKept(st, next, changed);
    }
    var more;
    more, now := PutManifest(st, next, changed, stages, words, number);
    if target > 1 {
      var check := LoadManifest(more, id, now);
      if !check.Loaded? { return Failed, now, c; }
    }
    r := Written(more, id, 0, 0);
  }

  /** The manifest resharding prepares. */
  function ReshardedOf(m: Manifest, id: nat, target: nat, c: Change): Manifest
    requires |c.buckets| == BUCKETS
  {
    Manifest(id, m.sequence + 1, c.buckets, m.count, target, if target == 1 then [] else seq(target, _ => 0))
  }

  /** Every bucket refers only to chunks staged with it. */
  ghost predicate AllStaged(c: Change) {
    |c.buckets| == BUCKETS && forall i :: 0 <= i < BUCKETS ==> StagedIn(c.buckets[i], c.stages)
  }

  /** Every shard of the target layout gets a manifest, and nothing else. */
  ghost predicate AllChanged(target: nat, changed: set<nat>) {
    (target > 1 ==> forall s: nat :: s in changed <==> s < target) && (target == 1 ==> changed == {})
  }

  lemma SomeShard(n: nat)
    requires ValidShardCount(n)
    ensures n > 0
  {
  }

  method AllShards(target: nat) returns (ids: seq<nat>, changed: set<nat>)
    requires target > 0
    ensures ids == (if target == 1 then [] else seq(target, _ => 0)) && AllChanged(target, changed)
  {
    ids, changed := [], {};
    if target == 1 { return; }
    ids := seq(target, _ => 0);
    for s := 0 to target
      invariant forall t: nat :: t in changed <==> t < s
    {
      changed := changed + {s};
    }
  }

  lemma NoneKept(st: Store, next: Manifest, changed: set<nat>)
    requires next.shards > 0 && |next.ids| == (if next.shards == 1 then 0 else next.shards)
    requires next.shards > 1 ==> forall s: nat :: s < next.shards ==> s in changed
    ensures KeptShards(st, next, changed)
  {
  }
}
