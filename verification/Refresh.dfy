/** Refreshing the serving engine: cached buckets and unchanged shard engines are reused
    (pkg/acor/versioned_reuse.go, pkg/acor/versioned.go).  An engine is represented by the
    dictionary it was built from. */
module Refresh {
  import opened Matching
  import opened BucketStorage
  import opened Dictionaries
  import opened Manifests
  import Composite

  /** What is installed: the manifest, the cached words of every bucket, the shard
      engines, and the engine that answers searches. */
  datatype Serving = NotServing | Serving(manifest: Manifest, buckets: Contents, shards: seq<set<Word>>, engine: set<Word>)

  // ----- what a build from scratch gives -----

  function ShardDict(words: Contents, s: nat, n: nat, u: nat): set<Word>
    requires n > 0 && u <= |words|
  {
    if u == 0 then {} else ShardDict(words, s, n, u - 1) + if (u - 1) % n == s then Members(words[u - 1]) else {}
  }

  ghost function FromScratch(m: Manifest, words: Contents): Serving
    requires m.shards > 0 && |words| == BUCKETS
  {
    Serving(m, words, if m.shards == 1 then [] else seq(m.shards, s requires 0 <= s < m.shards => ShardDict(words, s, m.shards, BUCKETS)), Dict(words))
  }

  lemma {:induction false} ShardDictMember(words: Contents, s: nat, n: nat, u: nat, w: Word)
    requires n > 0 && u <= |words|
    ensures w in ShardDict(words, s, n, u) <==> exists i :: 0 <= i < u && i % n == s && w in words[i]
  {
    if u > 0 { ShardDictMember(words, s, n, u - 1, w); }
  }

  /** The shard dictionaries split the whole one, so their composite answers for it. */
  lemma ShardsSplit(words: Contents, n: nat, number: Numbering)
    requires n > 0 && Located(number, words)
    ensures Composite.Splits(seq(n, s requires 0 <= s < n => ShardDict(words, s, n, BUCKETS)), Dict(words))
  {
    var dicts := seq(n, s requires 0 <= s < n => ShardDict(words, s, n, BUCKETS));
    forall w ensures w in Dict(words) <==> Composite.InSome(dicts, w) {
      DictMember(words, BUCKETS, w);
      if i :| 0 <= i < BUCKETS && w in words[i] {
        ShardDictMember(words, i % n, n, BUCKETS, w);
        assert w in dicts[i % n];
      }
      if s :| 0 <= s < |dicts| && w in dicts[s] { ShardDictMember(words, s, n, BUCKETS, w); }
    }
    forall a, b, w | 0 <= a < b < |dicts| && w in dicts[a] ensures w !in dicts[b] {
      ShardOfWord(words, n, number, a, w);
      ShardOfWord(words, n, number, b, w);
    }
  }

  lemma ShardOfWord(words: Contents, n: nat, number: Numbering, s: nat, w: Word)
    requires n > 0 && Located(number, words)
    ensures w in ShardDict(words, s, n, BUCKETS) ==> number(w) % n == s
  {
    ShardDictMember(words, s, n, BUCKETS, w);
    if i :| 0 <= i < BUCKETS && i % n == s && w in words[i] { assert BucketWords(number, words[i], i); }
  }

  // ----- what may be reused -----

  /** Count and digest fix a bucket's words. */
  ghost predicate Checked(b: Bucket, ws: seq<Word>) {
    b.count == |ws| && (b.count != 0 ==> b.checksum == HashOf(ws))
  }

  predicate SameBucket(a: Bucket, b: Bucket) { a.count == b.count && a.checksum == b.checksum && a.chunks == b.chunks }

  lemma SameWords(a: Bucket, was: seq<Word>, b: Bucket, ws: seq<Word>)
    requires Checked(a, was) && Checked(b, ws) && SameBucket(a, b)
    ensures was == ws
  {
  }

  /** Every bucket's words have its count and digest. */
  ghost predicate AllChecked(buckets: seq<Bucket>, words: Contents) {
    |buckets| == |words| == BUCKETS && forall i {:trigger words[i]} :: 0 <= i < BUCKETS ==> Checked(buckets[i], words[i])
  }

  /** The chunk store at the moment each bucket is read. */
  type Reads = nat -> Chunks

  /** Every bucket holds its words when it is read. */
  ghost predicate HeldWhenRead(seen: Reads, buckets: seq<Bucket>, words: Contents) {
    |buckets| == |words| == BUCKETS && forall i {:trigger Holds(seen(i), buckets[i], words[i])} :: 0 <= i < BUCKETS ==> Holds(seen(i), buckets[i], words[i])
  }

  lemma HeldChecked(seen: Reads, buckets: seq<Bucket>, words: Contents)
    requires HeldWhenRead(seen, buckets, words)
    ensures AllChecked(buckets, words)
  {
    forall i | 0 <= i < BUCKETS ensures Checked(buckets[i], words[i]) { assert Holds(seen(i), buckets[i], words[i]); }
  }

  /** It is enough that the chunks of a pinned generation stay; everything else in the
      store may come and go. */
  lemma PinnedIsEnough(chunks: Chunks, seen: Reads, buckets: seq<Bucket>, words: Contents, n: nat)
    requires BucketsOk(chunks, buckets, words, n)
    requires forall i, h :: 0 <= i < BUCKETS && h in buckets[i].chunks ==> Stays(chunks, seen(i), ChunkKey(buckets[i].place, h))
    ensures HeldWhenRead(seen, buckets, words)
  {
    forall i | 0 <= i < BUCKETS ensures Holds(seen(i), buckets[i], words[i]) {
      assert BucketOk(chunks, buckets[i], words[i], n, i);
      forall h | h in buckets[i].chunks ensures buckets[i].count == 0 || ChunkOk(seen(i), buckets[i].place, h) {
        assert Stays(chunks, seen(i), ChunkKey(buckets[i].place, h));
        assert buckets[i].count != 0 ==> ChunkOk(chunks, buckets[i].place, h);
      }
    }
  }

  predicate Stays(chunks: Chunks, later: Chunks, k: ChunkKey) {
    k in chunks ==> k in later && later[k] == chunks[k]
  }

  /** Counts and digests leave no choice. */
  lemma CheckedUnique(buckets: seq<Bucket>, a: Contents, b: Contents)
    requires AllChecked(buckets, a) && AllChecked(buckets, b)
    ensures a == b
  {
    forall i | 0 <= i < BUCKETS ensures a[i] == b[i] { SameWords(buckets[i], a[i], buckets[i], b[i]); }
  }

  predicate ReusableShard(previous: Serving, m: Manifest, s: nat) {
    && previous.Serving? && previous.manifest.shards > 1 && previous.manifest.shards == m.shards
    && |previous.shards| == |m.ids| && s < |m.ids| && s < |previous.manifest.ids|
    && previous.manifest.ids[s] == m.ids[s]
  }

  /** What was installed came from an earlier generation: checked words, shard engines
      built from them, and shard manifests of the collection. `docs` holds every shard
      manifest ever written; its ids are never used twice. */
  ghost predicate CacheOk(c: Serving, docs: map<ShardKey, ShardDoc>) {
    c.Serving? ==>
      && c.manifest.shards > 0 && AllChecked(c.manifest.buckets, c.buckets)
      && c == FromScratch(c.manifest, c.buckets)
      && (c.manifest.shards > 1 ==> Matches(docs, c.manifest.ids, c.manifest.shards, c.manifest.buckets))
  }

  /** Equal shard manifest ids mean equal buckets throughout the shard. */
  lemma SameShardBuckets(docs: map<ShardKey, ShardDoc>, n: nat, a: seq<Bucket>, ids: seq<nat>, b: seq<Bucket>, jds: seq<nat>, s: nat, i: nat)
    requires Matches(docs, ids, n, a) && Matches(docs, jds, n, b) && s < n && ids[s] == jds[s] && i < BUCKETS && i % n == s
    ensures a[i] == b[i]
  {
    hide OwnCount;
    assert ShardMatches(docs, ids[s], s, n, a) && ShardMatches(docs, jds[s], s, n, b);
    var x, y := Entries(a, s, n, BUCKETS), Entries(b, s, n, BUCKETS);
    assert x == y;
    assert i in x <==> a[i].count > 0;
    assert i in y <==> b[i].count > 0;
    if a[i].count > 0 { assert x[i] == Bare(a[i]) && y[i] == Bare(b[i]); }
  }

  lemma {:induction false} SameShardDict(a: Contents, b: Contents, s: nat, n: nat, u: nat)
    requires n > 0 && u <= |a| && u <= |b| && forall i :: 0 <= i < u && i % n == s ==> a[i] == b[i]
    ensures ShardDict(a, s, n, u) == ShardDict(b, s, n, u)
  {
    if u > 0 { SameShardDict(a, b, s, n, u - 1); }
  }

  lemma ReusedShard(c: Serving, docs: map<ShardKey, ShardDoc>, m: Manifest, words: Contents, s: nat)
    requires CacheOk(c, docs) && m.shards > 1 && Matches(docs, m.ids, m.shards, m.buckets) && AllChecked(m.buckets, words)
    requires ReusableShard(c, m, s)
    ensures s < |c.shards| && c.shards[s] == ShardDict(words, s, m.shards, BUCKETS)
  {
    var n := m.shards;
    forall i | 0 <= i < BUCKETS && i % n == s ensures c.buckets[i] == words[i] {
      SameShardBuckets(docs, n, c.manifest.buckets, c.manifest.ids, m.buckets, m.ids, s, i);
      SameWords(c.manifest.buckets[i], c.buckets[i], m.buckets[i], words[i]);
    }
    SameShardDict(c.buckets, words, s, n, BUCKETS);
  }

  // ----- building -----

  /** The words of every bucket, from the cache where nothing changed; what is returned
      has been checked, and readable buckets are returned. */
  method EngineBuckets(previous: Serving, seen: Reads, m: Manifest, ghost docs: map<ShardKey, ShardDoc>, ghost words: Contents)
    returns (next: Contents, ok: bool)
    requires CacheOk(previous, docs)
    ensures ok ==> AllChecked(m.buckets, next)
    ensures HeldWhenRead(seen, m.buckets, words) ==> ok && next == words
  {
    hide Matches, FromScratch, Holds, Checked, DictUpTo;
    next, ok := [], false;
    for i := 0 to BUCKETS
      invariant |next| == i && forall j :: 0 <= j < i ==> Checked(m.buckets[j], next[j])
    {
      if previous.Serving? && SameBucket(previous.manifest.buckets[i], m.buckets[i]) {
        SameChecked(previous.manifest.buckets[i], m.buckets[i], previous.buckets[i]);
        next := next + [previous.buckets[i]];
        continue;
      }
      var read := ReadBucket(seen(i), m.buckets[i]);
      assert HeldWhenRead(seen, m.buckets, words) ==> Holds(seen(i), m.buckets[i], words[i]);
      if !read.Read? { return; }
      HoldsChecked(seen(i), m.buckets[i], read.words);
      next := next + [read.words];
    }
    ok := true;
    if HeldWhenRead(seen, m.buckets, words) {
      HeldChecked(seen, m.buckets, words);
      CheckedUnique(m.buckets, next, words);
    }
  }

  lemma SameChecked(a: Bucket, b: Bucket, ws: seq<Word>)
    requires Checked(a, ws) && SameBucket(a, b)
    ensures Checked(b, ws)
  {
  }

  lemma HoldsChecked(chunks: Chunks, b: Bucket, ws: seq<Word>)
    requires Holds(chunks, b, ws)
    ensures Checked(b, ws)
  {
  }

  /** Visits a shard's buckets with the stride of the layout. */
  method ShardWords(buckets: Contents, s: nat, n: nat) returns (dict: set<Word>)
    requires n > s && |buckets| == BUCKETS
    ensures dict == ShardDict(buckets, s, n, BUCKETS)
  {
    hide ShardDict;
    dict := {};
    var b := s;
    ghost var q := 0;
    NoneBelow(buckets, s, n, Cap(s));
    while b < BUCKETS
      invariant b == q * n + s && dict == ShardDict(buckets, s, n, Cap(b))
      decreases BUCKETS - b
    {
      dict := dict + Members(buckets[b]);
      Stride(buckets, s, n, q, Cap(b + n));
      b := b + n;
      q := q + 1;
    }
  }

  function Cap(b: nat): nat { if b <= BUCKETS then b else BUCKETS }

  lemma Residue(x: nat, n: nat, q: nat, r: nat)
    requires r < n && x == q * n + r
    ensures x % n == r
  {
    var d := x / n;
    assert x == d * n + x % n;
    if d < q { Scale(d + 1, q, n); }
    if d > q { Scale(q + 1, d, n); }
  }

  lemma Scale(a: nat, b: nat, n: nat)
    requires a <= b
    ensures a * n <= b * n
  {
    assert (b - a) * n >= 0;
  }

  lemma {:induction false} NoneBelow(words: Contents, s: nat, n: nat, u: nat)
    requires n > s && u <= s && u <= |words|
    ensures ShardDict(words, s, n, u) == {}
  {
    if u > 0 {
      NoneBelow(words, s, n, u - 1);
      Residue(u - 1, n, 0, u - 1);
    }
  }

  /** Between two stops of the stride there is nothing of the shard. */
  lemma {:induction false} Stride(words: Contents, s: nat, n: nat, q: nat, u: nat)
    requires n > s && q * n + s < u <= |words| && u <= q * n + s + n
    ensures ShardDict(words, s, n, u) == ShardDict(words, s, n, q * n + s) + Members(words[q * n + s])
    decreases u
  {
    var b := q * n + s;
    if u == b + 1 {
      Residue(b, n, q, s);
    } else {
      Stride(words, s, n, q, u - 1);
      var r := s + (u - 1 - b);
      if r < n {
        Residue(u - 1, n, q, r);
      } else {
        assert u - 1 == (q + 1) * n + (r - n);
        Residue(u - 1, n, q + 1, r - n);
      }
    }
  }

  lemma UnionStep(words: Contents, u: nat)
    requires u < |words|
    ensures DictUpTo(words, u + 1) == DictUpTo(words, u) + Members(words[u]) && DictUpTo(words, 0) == {}
  {
  }

  function UnionAll(ds: seq<set<Word>>): set<Word> {
    if ds == [] then {} else UnionAll(ds[..|ds| - 1]) + ds[|ds| - 1]
  }

  lemma {:induction false} UnionMember(ds: seq<set<Word>>, w: Word)
    ensures w in UnionAll(ds) <==> exists t :: 0 <= t < |ds| && w in ds[t]
  {
    if ds != [] {
      UnionMember(ds[..|ds| - 1], w);
      if t :| 0 <= t < |ds| && w in ds[t] && t < |ds| - 1 { assert w in ds[..|ds| - 1][t]; }
    }
  }

  lemma UnionSnoc(ds: seq<set<Word>>, d: set<Word>)
    ensures UnionAll(ds + [d]) == UnionAll(ds) + d && UnionAll([]) == {}
  {
    assert (ds + [d])[..|ds|] == ds;
  }

  /** Builds a complete candidate without touching what is installed. */
  method BuildGeneration(previous: Serving, m: Manifest, buckets: Contents, ghost docs: map<ShardKey, ShardDoc>)
    returns (e: set<Word>, shards: seq<set<Word>>)
    requires CacheOk(previous, docs) && m.shards > 0 && AllChecked(m.buckets, buckets)
    requires m.shards > 1 ==> Matches(docs, m.ids, m.shards, m.buckets)
    ensures Serving(m, buckets, shards, e) == FromScratch(m, buckets)
  {
    hide Matches, CacheOk, ShardDict, DictUpTo, UnionAll, Checked;
    shards := [];
    if m.shards == 1 {
      e := {};
      UnionStep(buckets, 0);
      for i := 0 to BUCKETS
        invariant e == DictUpTo(buckets, i)
      {
        UnionStep(buckets, i);
        e := e + Members(buckets[i]);
      }
      return;
    }
    e := {};
    UnionSnoc([], {});
    for s := 0 to m.shards
      invariant |shards| == s && e == UnionAll(shards)
      invariant forall t :: 0 <= t < s ==> shards[t] == ShardDict(buckets, t, m.shards, BUCKETS)
    {
      var d;
      if ReusableShard(previous, m, s) {
        ReusedShard(previous, docs, m, buckets, s);
        d := previous.shards[s];
      } else {
        d := ShardWords(buckets, s, m.shards);
      }
      UnionSnoc(shards, d);
      shards := shards + [d];
      e := e + d;
    }
    WholeDict(buckets, m.shards, shards, e);
  }

  lemma WholeDict(words: Contents, n: nat, shards: seq<set<Word>>, e: set<Word>)
    requires n > 0 && |words| == BUCKETS && |shards| == n && e == UnionAll(shards)
    requires forall t :: 0 <= t < n ==> shards[t] == ShardDict(words, t, n, BUCKETS)
    ensures e == Dict(words)
  {
    forall w ensures w in e <==> w in Dict(words) {
      DictMember(words, BUCKETS, w);
      UnionMember(shards, w);
      if t :| 0 <= t < n && w in shards[t] { ShardDictMember(words, t, n, BUCKETS, w); }
      if i :| 0 <= i < BUCKETS && w in words[i] {
        ShardDictMember(words, i % n, n, BUCKETS, w);
        assert w in shards[i % n];
      }
    }
  }

  // ----- refreshing -----

  /** What the environment answers during one refresh: the manifest documents, each as it
      was when it was read (a refresh reads each once); the chunks at each bucket's
      reading; whether the active version could be read and a generation pinned, which
      ones; and whether the lease and the collection were still good at the end. */
  datatype Attempt = Attempt(store: Store, seen: Reads, activeRead: bool, active: nat, pinned: bool, version: nat, stillLeased: bool)

  /** Shard manifests are immutable and their ids are never used twice. */
  ghost predicate Immutable(st: Store, docs: map<ShardKey, ShardDoc>) {
    forall k {:trigger k in st.shardDocs} :: k in st.shardDocs ==> k in docs && docs[k] == st.shardDocs[k]
  }

  lemma MatchesEver(st: Store, docs: map<ShardKey, ShardDoc>, ids: seq<nat>, n: nat, buckets: seq<Bucket>)
    requires Immutable(st, docs) && Matches(st.shardDocs, ids, n, buckets)
    ensures Matches(docs, ids, n, buckets)
  {
    hide OwnCount, Entries;
    forall s | 0 <= s < n ensures ShardMatches(docs, ids[s], s, n, buckets) { assert ShardMatches(st.shardDocs, ids[s], s, n, buckets); }
  }

  class VersionedCollection {
    var current: Serving
    ghost const docs: map<ShardKey, ShardDoc>

    constructor (ghost docs: map<ShardKey, ShardDoc>)
      ensures Valid() && current == NotServing && this.docs == docs
    {
      current := NotServing;
      this.docs := docs;
    }

    /** What is installed is a build from scratch of one generation's checked words. */
    ghost predicate Valid()
      reads this
    {
      CacheOk(current, docs)
    }

    /** One serialized refresh.  A failure at any point leaves what was installed; a
        success means the active generation is installed, or the pinned one, and what
        is newly installed is a build from scratch of the pinned generation, however the
        rest of the store changed meanwhile.  `m` and `words` are any generation and
        dictionary that the answers represent. */
    method Refresh(a: Attempt, ghost m: Manifest, ghost words: Contents) returns (ok: bool)
      requires Valid() && Immutable(a.store, docs)
      modifies this
      ensures Valid()
      ensures !ok ==> current == old(current)
      ensures ok ==> current.Serving? && (current.manifest.version == a.active || (a.pinned && current.manifest.version == a.version))
      ensures ok && current != old(current) && Pinned(a, m, words) ==> |words| == BUCKETS && m.shards > 0 && current == FromScratch(m, words)
      ensures ok && current != old(current) && Pinned(a, m, words) ==>
                && current.Serving? && current.manifest == m && current.buckets == words
                && (forall w :: w in current.engine <==> exists i :: 0 <= i < BUCKETS && w in words[i])
                && |current.shards| == (if m.shards == 1 then 0 else m.shards)
                && (forall s, w :: 0 <= s < |current.shards| ==>
                      (w in current.shards[s] <==> exists i :: 0 <= i < BUCKETS && i % m.shards == s && w in words[i]))
      ensures a.activeRead && a.pinned && a.stillLeased && Pinned(a, m, words) ==> ok
    {
      hide Matches, HeldWhenRead, FromScratch, Normal, CountUpTo, ValidShardCount, AllChecked, Immutable;
      ok := false;
      if !a.activeRead { return; }
      if current.Serving? && current.manifest.version == a.active { return true; }
      if !a.pinned { return; }
      var loaded := LoadManifest(a.store, a.version, m);
      if !loaded.Loaded? { return; }
      if current.Serving? && current.manifest.version == a.version { return true; }
      var next := loaded.m;
      if next.shards > 1 { MatchesEver(a.store, docs, next.ids, next.shards, next.buckets); }
      var buckets, complete := EngineBuckets(current, a.seen, next, docs, words);
      if !complete { return; }
      var e, shards := BuildGeneration(current, next, buckets, docs);
      if !a.stillLeased { return; }
      current := Serving(next, buckets, shards, e);
      Scratch(next, buckets);
      if Pinned(a, m, words) {
        Scratch(m, words);
        ScratchMeans(m, words);
      }
      ok := true;
    }
  }

  /** The pinned version describes generation `m`, and each of its buckets was still there
      when it was read. */
  ghost predicate Pinned(a: Attempt, m: Manifest, words: Contents) {
    a.pinned && Describes(a.store, a.version, m) && HeldWhenRead(a.seen, m.buckets, words)
  }

  /** The engine searches for the words of all buckets, a shard engine for those of its
      own. */
  lemma ScratchMeans(m: Manifest, words: Contents)
    requires m.shards > 0 && |words| == BUCKETS
    ensures var c := FromScratch(m, words);
            && (forall w :: w in c.engine <==> exists i :: 0 <= i < BUCKETS && w in words[i])
            && |c.shards| == (if m.shards == 1 then 0 else m.shards)
            && (forall s, w :: 0 <= s < |c.shards| ==>
                  (w in c.shards[s] <==> exists i :: 0 <= i < BUCKETS && i % m.shards == s && w in words[i]))
  {
    hide ShardDict, DictUpTo;
    var c := FromScratch(m, words);
    forall w ensures w in c.engine <==> exists i :: 0 <= i < BUCKETS && w in words[i] { DictMember(words, BUCKETS, w); }
    forall s, w | 0 <= s < |c.shards| ensures w in c.shards[s] <==> exists i :: 0 <= i < BUCKETS && i % m.shards == s && w in words[i] {
      ShardDictMember(words, s, m.shards, BUCKETS, w);
    }
  }

  lemma Scratch(m: Manifest, words: Contents)
    ensures AllChecked(m.buckets, words) && m.shards > 0 ==>
              && |words| == BUCKETS && FromScratch(m, words).Serving?
              && FromScratch(m, words).manifest == m && FromScratch(m, words).buckets == words
  {
  }
}
