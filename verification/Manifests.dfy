/** Manifests: the plain one, and the global one with a manifest per shard; writing the
    next one, loading it with all checks, and resharding
    (pkg/acor/versioned_write.go, pkg/acor/versioned_shards.go, pkg/acor/versioned.go). */
module Manifests {
  import opened BucketStorage
  import opened Dictionaries

  datatype ShardKey = ShardKey(shard: nat, id: nat)

  /** The place of a bucket is not part of the encoding. */
  type BareBucket = b: Bucket | b.place == Unsharded witness EMPTY

  datatype ShardDoc = ShardDoc(id: nat, shard: nat, buckets: map<nat, BareBucket>, count: int)

  /** The fixed-size bucket array of a plain manifest. */
  type BucketArray = b: seq<Bucket> | |b| == BUCKETS witness seq(BUCKETS, _ => EMPTY)

  datatype GenDoc =
    | PlainDoc(version: nat, sequence: nat, buckets: BucketArray, count: int)
    | GlobalDoc(version: nat, sequence: nat, shards: nat, ids: seq<nat>, count: int)

  datatype Store = Store(gens: map<nat, GenDoc>, shardDocs: map<ShardKey, ShardDoc>, chunks: Chunks)

  /** A loaded manifest; one shard means the plain layout, without shard ids. */
  datatype Manifest = Manifest(version: nat, sequence: nat, buckets: BucketArray, count: int, shards: nat, ids: seq<nat>)

  /** A power of two up to 256. */
  predicate ValidShardCount(n: nat) {
    n == 1 || n == 2 || n == 4 || n == 8 || n == 16 || n == 32 || n == 64 || n == 128 || n == 256
  }

  /** The test on 16-bit counts: clearing the lowest set bit leaves nothing. */
  predicate ShardCountTest(count: bv16) { 1 <= count <= 256 && count & (count - 1) == 0 }

  lemma ShardCountTestExact(count: bv16)
    ensures ShardCountTest(count) <==> ValidShardCount(count as nat)
  {
  }

  function Bare(b: Bucket): BareBucket { b.(place := Unsharded) }

  predicate RefsOk(b: Bucket) { b.chunks != [] && b.checksum.HashOf? && forall h :: h in b.chunks ==> h.HashOf? }

  // ----- counting -----

  /** Keywords in the buckets below `u` that shard `s` of `n` owns. */
  function OwnCount(buckets: seq<Bucket>, s: nat, n: nat, u: nat): int
    requires n > 0 && u <= |buckets|
  {
    if u == 0 then 0
    else OwnCount(buckets, s, n, u - 1) + if (u - 1) % n == s && buckets[u - 1].count > 0 then buckets[u - 1].count else 0
  }

  /** The same over the shards below `k`. */
  function GroupCount(buckets: seq<Bucket>, n: nat, k: nat, u: nat): int
    requires n > 0 && u <= |buckets|
  {
    if k == 0 then 0 else GroupCount(buckets, n, k - 1, u) + OwnCount(buckets, k - 1, n, u)
  }

  function CountUpTo(buckets: seq<Bucket>, u: nat): int
    requires u <= |buckets|
  {
    if u == 0 then 0 else CountUpTo(buckets, u - 1) + if buckets[u - 1].count > 0 then buckets[u - 1].count else 0
  }

  lemma {:induction false} GroupStep(buckets: seq<Bucket>, n: nat, k: nat, u: nat)
    requires n > 0 && u < |buckets|
    ensures GroupCount(buckets, n, k, u + 1) ==
              GroupCount(buckets, n, k, u) + if u % n < k && buckets[u].count > 0 then buckets[u].count else 0
  {
    if k > 0 { GroupStep(buckets, n, k - 1, u); }
  }

  lemma {:induction false} GroupZero(buckets: seq<Bucket>, n: nat, k: nat)
    requires n > 0
    ensures GroupCount(buckets, n, k, 0) == 0
  {
    if k > 0 { GroupZero(buckets, n, k - 1); }
  }

  /** Counting shard by shard counts every bucket once. */
  lemma {:induction false} GroupIsTotal(buckets: seq<Bucket>, n: nat, u: nat)
    requires n > 0 && u <= |buckets|
    ensures GroupCount(buckets, n, n, u) == CountUpTo(buckets, u)
  {
    if u == 0 {
      GroupZero(buckets, n, n);
    } else {
      GroupIsTotal(buckets, n, u - 1);
      GroupStep(buckets, n, n, u - 1);
    }
  }

  lemma {:induction false} OwnCountSame(a: seq<Bucket>, b: seq<Bucket>, s: nat, n: nat, u: nat)
    requires n > 0 && u <= |a| && u <= |b| && forall i :: 0 <= i < u && i % n == s ==> a[i] == b[i]
    ensures OwnCount(a, s, n, u) == OwnCount(b, s, n, u)
  {
    if u > 0 { OwnCountSame(a, b, s, n, u - 1); }
  }

  lemma {:induction false} GroupSame(a: seq<Bucket>, b: seq<Bucket>, n: nat, k: nat, u: nat)
    requires n > 0 && u <= |a| && u <= |b| && forall i :: 0 <= i < u && i % n < k ==> a[i] == b[i]
    ensures GroupCount(a, n, k, u) == GroupCount(b, n, k, u)
  {
    if k > 0 {
      GroupSame(a, b, n, k - 1, u);
      OwnCountSame(a, b, k - 1, n, u);
    }
  }

  lemma {:induction false} OwnCountNat(buckets: seq<Bucket>, s: nat, n: nat, u: nat)
    requires n > 0 && u <= |buckets|
    ensures OwnCount(buckets, s, n, u) >= 0
  {
    if u > 0 { OwnCountNat(buckets, s, n, u - 1); }
  }

  /** Stored counts are the sizes of what is stored. */
  lemma {:induction false} CountIsTotal(chunks: Chunks, buckets: seq<Bucket>, words: Contents, shards: nat, u: nat)
    requires BucketsOk(chunks, buckets, words, shards) && u <= BUCKETS
    ensures CountUpTo(buckets, u) == TotalUpTo(words, u)
  {
    if u > 0 {
      CountIsTotal(chunks, buckets, words, shards, u - 1);
      assert BucketOk(chunks, buckets[u - 1], words[u - 1], shards, u - 1);
    }
  }

  // ----- shard manifests -----

  /** The entries that a shard manifest lists: the non-empty buckets of its shard. */
  function Entries(buckets: seq<Bucket>, s: nat, n: nat, u: nat): map<nat, BareBucket>
    requires n > 0 && u <= |buckets|
  {
    map i | 0 <= i < u && i % n == s && buckets[i].count > 0 :: Bare(buckets[i])
  }

  /** Collects a shard's entries and their count. */
  method MakeShardDoc(buckets: seq<Bucket>, s: nat, n: nat, id: nat) returns (doc: ShardDoc)
    requires n > 0 && |buckets| == BUCKETS
    ensures doc == ShardDoc(id, s, Entries(buckets, s, n, BUCKETS), OwnCount(buckets, s, n, BUCKETS))
  {
    var entries: map<nat, BareBucket>, count := map[], 0;
    for i := 0 to BUCKETS
      invariant entries == Entries(buckets, s, n, i) && count == OwnCount(buckets, s, n, i)
    {
      if buckets[i].count > 0 && i % n == s {
        entries := entries[i := Bare(buckets[i])];
        count := count + buckets[i].count;
      }
    }
    doc := ShardDoc(id, s, entries, count);
  }

  /** What decoding accepts in one entry. */
  predicate EntryOk(n: nat, s: nat, number: nat, b: Bucket)
    requires n > 0
  {
    number < BUCKETS && number % n == s && b.count > 0 && RefsOk(b)
  }

  /** `buckets` with the listed entries put in their places. */
  function Placed(buckets: seq<Bucket>, entries: map<nat, Bucket>, s: nat): seq<Bucket> {
    seq(|buckets|, i requires 0 <= i < |buckets| => if i in entries then entries[i].(place := InShard(s)) else buckets[i])
  }

  ghost predicate Vacant(buckets: seq<Bucket>, s: nat, n: nat)
    requires n > 0
  {
    |buckets| == BUCKETS && forall i :: 0 <= i < BUCKETS && i % n == s ==> buckets[i].count <= 0
  }

  ghost predicate EntriesOk(entries: map<nat, Bucket>, s: nat, n: nat)
    requires n > 0
  {
    forall k {:trigger k in entries} :: k in entries ==> EntryOk(n, s, k, entries[k])
  }

  lemma {:induction false} OwnCountSet(buckets: seq<Bucket>, k: nat, b: Bucket, s: nat, n: nat, u: nat)
    requires n > 0 && u <= |buckets| && k < |buckets| && k % n == s && buckets[k].count <= 0 && b.count > 0
    ensures OwnCount(buckets[k := b], s, n, u) == OwnCount(buckets, s, n, u) + if k < u then b.count else 0
  {
    if u > 0 { OwnCountSet(buckets, k, b, s, n, u - 1); }
  }

  lemma {:induction false} OwnCountMono(a: seq<Bucket>, b: seq<Bucket>, s: nat, n: nat, u: nat)
    requires n > 0 && u <= |a| && u <= |b| && forall i :: 0 <= i < u && i % n == s ==> a[i].count <= 0 || a[i].count == b[i].count
    ensures OwnCount(a, s, n, u) <= OwnCount(b, s, n, u)
  {
    if u > 0 { OwnCountMono(a, b, s, n, u - 1); }
  }

  lemma {:induction false} OwnCountVacant(buckets: seq<Bucket>, s: nat, n: nat, u: nat)
    requires n > 0 && Vacant(buckets, s, n) && u <= BUCKETS
    ensures OwnCount(buckets, s, n, u) == 0
  {
    if u > 0 { OwnCountVacant(buckets, s, n, u - 1); }
  }

  /** The entries with numbers in `done` have been put in their places. */
  ghost predicate PlacedPart(before: seq<Bucket>, entries: map<nat, Bucket>, s: nat, done: set<nat>, now: seq<Bucket>) {
    |now| == |before| && forall i {:trigger now[i]} :: 0 <= i < |now| ==>
      now[i] == if i in done && i in entries then entries[i].(place := InShard(s)) else before[i]
  }

  /** Checks a shard manifest entry by entry and puts its buckets in their places. */
  method DecodeShard(doc: ShardDoc, id: nat, s: nat, n: nat, before: seq<Bucket>) returns (now: seq<Bucket>, ok: bool)
    requires n > 1 && Vacant(before, s, n)
    ensures ok ==> doc.id == id && doc.shard == s && EntriesOk(doc.buckets, s, n) && now == Placed(before, doc.buckets, s)
    ensures ok ==> doc.count == OwnCount(now, s, n, BUCKETS)
    ensures doc.id == id && doc.shard == s && EntriesOk(doc.buckets, s, n) && doc.count == OwnCount(Placed(before, doc.buckets, s), s, n, BUCKETS) ==> ok
  {
    hide OwnCount, EntryOk, RefsOk;
    now, ok := before, false;
    ghost var end := Placed(before, doc.buckets, s);
    OwnCountNat(end, s, n, BUCKETS);
    if doc.id != id || doc.shard != s || doc.count < 0 { return; }
    var count := 0;
    var todo := doc.buckets.Keys;
    OwnCountVacant(before, s, n, BUCKETS);
    while |todo| > 0
      invariant todo <= doc.buckets.Keys && PlacedPart(before, doc.buckets, s, doc.buckets.Keys - todo, now)
      invariant (forall k :: k in doc.buckets && k !in todo ==> EntryOk(n, s, k, doc.buckets[k])) && count == OwnCount(now, s, n, BUCKETS)
      decreases |todo|
    {
      SomeNumber(todo);
      var k :| k in todo;
      var b := doc.buckets[k];
      if !EntryOk(n, s, k, b) { return; }
      EntryFacts(n, s, k, b);
      ghost var next := now[k := b.(place := InShard(s))];
      OwnCountSet(now, k, b.(place := InShard(s)), s, n, BUCKETS);
      StillBelow(before, doc.buckets, s, n, todo, k, next);
      if b.count > doc.count - count { return; }
      now := now[k := b.(place := InShard(s))];
      count := count + b.count;
      todo := todo - {k};
    }
    assert now == end;
    ok := count == doc.count;
  }

  lemma SomeNumber(s: set<nat>)
    ensures |s| > 0 ==> exists k :: k in s
  {
    if forall k :: k !in s { assert s == {}; }
  }

  lemma EntryFacts(n: nat, s: nat, k: nat, b: Bucket)
    requires n > 0 && EntryOk(n, s, k, b)
    ensures k < BUCKETS && k % n == s && b.count > 0
  {
  }

  lemma StillBelow(before: seq<Bucket>, entries: map<nat, Bucket>, s: nat, n: nat, todo: set<nat>, k: nat, next: seq<Bucket>)
    requires n > 0 && Vacant(before, s, n) && k < BUCKETS && k in todo && k in entries
    requires PlacedPart(before, entries, s, entries.Keys - (todo - {k}), next)
    ensures OwnCount(next, s, n, BUCKETS) <= OwnCount(Placed(before, entries, s), s, n, BUCKETS)
  {
    OwnCountMono(next, Placed(before, entries, s), s, n, BUCKETS);
  }

  // ----- loading -----

  /** Non-empty buckets are in their shard with proper references; empty ones are bare. */
  ghost predicate Normal(buckets: seq<Bucket>, n: nat)
    requires n > 0
  {
    |buckets| == BUCKETS && forall i {:trigger buckets[i]} :: 0 <= i < BUCKETS ==>
      if buckets[i].count > 0 then buckets[i].place == PlaceOf(n, i) && RefsOk(buckets[i]) else buckets[i] == EMPTY
  }

  /** The shard manifests named by `ids` list exactly these buckets. */
  ghost predicate ShardMatches(docs: map<ShardKey, ShardDoc>, id: nat, s: nat, n: nat, buckets: seq<Bucket>)
    requires n > 0 && |buckets| == BUCKETS
  {
    ShardKey(s, id) in docs && docs[ShardKey(s, id)] == ShardDoc(id, s, Entries(buckets, s, n, BUCKETS), OwnCount(buckets, s, n, BUCKETS))
  }

  ghost predicate Matches(docs: map<ShardKey, ShardDoc>, ids: seq<nat>, n: nat, buckets: seq<Bucket>) {
    && n > 1 && |ids| == n && |buckets| == BUCKETS && Normal(buckets, n)
    && forall s {:trigger ids[s]} :: 0 <= s < n ==> ShardMatches(docs, ids[s], s, n, buckets)
  }

  /** The buckets of the shards below `s`. */
  function Below(buckets: seq<Bucket>, n: nat, s: nat): seq<Bucket>
    requires n > 0
  {
    seq(|buckets|, i requires 0 <= i < |buckets| => if i % n < s then buckets[i] else EMPTY)
  }

  lemma {:induction false} GroupMono(buckets: seq<Bucket>, n: nat, k: nat, l: nat, u: nat)
    requires n > 0 && u <= |buckets| && k <= l
    ensures GroupCount(buckets, n, k, u) <= GroupCount(buckets, n, l, u)
  {
    if k < l {
      GroupMono(buckets, n, k, l - 1, u);
      OwnCountNat(buckets, l - 1, n, u);
    }
  }

  /** Decoding a matching shard manifest restores its buckets. */
  lemma ShardRoundTrip(docs: map<ShardKey, ShardDoc>, ids: seq<nat>, n: nat, target: seq<Bucket>, s: nat)
    requires Matches(docs, ids, n, target) && s < n
    ensures var doc, before := docs[ShardKey(s, ids[s])], Below(target, n, s);
            && EntriesOk(doc.buckets, s, n) && Placed(before, doc.buckets, s) == Below(target, n, s + 1)
            && doc.id == ids[s] && doc.shard == s && doc.count == OwnCount(Placed(before, doc.buckets, s), s, n, BUCKETS)
  {
    hide OwnCount;
    assert ShardMatches(docs, ids[s], s, n, target);
    var doc, before := docs[ShardKey(s, ids[s])], Below(target, n, s);
    var now := Placed(before, doc.buckets, s);
    forall i | 0 <= i < BUCKETS ensures now[i] == Below(target, n, s + 1)[i] { assert target[i] == target[i]; }
    assert now == Below(target, n, s + 1);
    OwnCountSame(now, target, s, n, BUCKETS);
  }

  /** Loaded buckets are where they belong and add up to the count. */
  ghost predicate Consistent(buckets: seq<Bucket>, n: nat, count: int) {
    n > 0 && |buckets| == BUCKETS && Normal(buckets, n) && CountUpTo(buckets, BUCKETS) == count
  }

  /** What loading has established after the shards below `s`. */
  ghost predicate LoadedPart(docs: map<ShardKey, ShardDoc>, ids: seq<nat>, buckets: seq<Bucket>, n: nat, s: nat, total: int) {
    && n > 1 && |ids| == n && |buckets| == BUCKETS && s <= n
    && (forall t {:trigger ids[t]} :: 0 <= t < s ==> ShardMatches(docs, ids[t], t, n, buckets))
    && Normal(buckets, n) && total == GroupCount(buckets, n, s, BUCKETS)
    && forall i {:trigger buckets[i]} :: 0 <= i < BUCKETS && i % n >= s ==> buckets[i] == EMPTY
  }

  lemma NotListed(entries: map<nat, Bucket>, s: nat, n: nat, i: nat)
    requires n > 0 && EntriesOk(entries, s, n)
    ensures i in entries ==> i % n == s
  {
    if i in entries { assert EntryOk(n, s, i, entries[i]); }
  }

  lemma LoadMore(docs: map<ShardKey, ShardDoc>, ids: seq<nat>, buckets: seq<Bucket>, n: nat, s: nat, total: int, doc: ShardDoc, now: seq<Bucket>)
    requires LoadedPart(docs, ids, buckets, n, s, total) && s < n && EntriesOk(doc.buckets, s, n) && now == Placed(buckets, doc.buckets, s)
    requires ShardKey(s, ids[s]) in docs && doc == docs[ShardKey(s, ids[s])] && doc.id == ids[s] && doc.shard == s && doc.count == OwnCount(now, s, n, BUCKETS)
    ensures LoadedPart(docs, ids, now, n, s + 1, total + doc.count)
  {
    hide OwnCount, ShardMatches;
    var entries := doc.buckets;
    forall i | 0 <= i < BUCKETS
      ensures if now[i].count > 0 then now[i].place == PlaceOf(n, i) && RefsOk(now[i]) else now[i] == EMPTY
      ensures i % n >= s + 1 ==> now[i] == EMPTY
    {
      if i in entries { assert EntryOk(n, s, i, entries[i]); } else { assert now[i] == buckets[i]; }
    }
    forall i | 0 <= i < BUCKETS && i % n < s ensures now[i] == buckets[i] {
      NotListed(entries, s, n, i);
    }
    GroupSame(now, buckets, n, s, BUCKETS);
    forall t | 0 <= t < s + 1 ensures ShardMatches(docs, ids[t], t, n, now) {
      if t < s {
        assert ids[t] == ids[t];
        SameShard(docs, ids[t], t, n, buckets, now);
      } else {
        OwnEntries(docs, buckets, n, s, doc, now);
      }
    }
  }

  /** A shard manifest matches as long as the shard's buckets are the same. */
  lemma SameShard(docs: map<ShardKey, ShardDoc>, id: nat, s: nat, n: nat, a: seq<Bucket>, b: seq<Bucket>)
    requires n > 0 && |a| == |b| == BUCKETS && ShardMatches(docs, id, s, n, a) && forall i :: 0 <= i < BUCKETS && i % n == s ==> a[i] == b[i]
    ensures ShardMatches(docs, id, s, n, b)
  {
    assert Entries(a, s, n, BUCKETS) == Entries(b, s, n, BUCKETS);
    OwnCountSame(a, b, s, n, BUCKETS);
  }

  lemma OwnEntries(docs: map<ShardKey, ShardDoc>, buckets: seq<Bucket>, n: nat, s: nat, doc: ShardDoc, now: seq<Bucket>)
    requires n > 0 && |buckets| == BUCKETS && EntriesOk(doc.buckets, s, n) && now == Placed(buckets, doc.buckets, s) && Vacant(buckets, s, n)
    requires ShardKey(s, doc.id) in docs && doc == docs[ShardKey(s, doc.id)] && doc.shard == s && doc.count == OwnCount(now, s, n, BUCKETS)
    ensures ShardMatches(docs, doc.id, s, n, now)
  {
    hide OwnCount;
    var entries := Entries(now, s, n, BUCKETS);
    forall k ensures k in entries <==> k in doc.buckets {
      if k in doc.buckets { assert EntryOk(n, s, k, doc.buckets[k]); }
    }
    assert entries == doc.buckets;
  }

  method LoadShards(docs: map<ShardKey, ShardDoc>, ids: seq<nat>, n: nat, count: int, ghost target: seq<Bucket>)
    returns (buckets: seq<Bucket>, ok: bool)
    requires n > 1 && |ids| == n
    ensures ok ==> Consistent(buckets, n, count) && Matches(docs, ids, n, buckets)
    ensures Matches(docs, ids, n, target) && CountUpTo(target, BUCKETS) == count ==> ok && buckets == target
  {
    hide OwnCount, GroupCount, Normal, EntriesOk, Placed, CountUpTo, Matches;
    ghost var good := Matches(docs, ids, n, target) && |target| == BUCKETS && CountUpTo(target, BUCKETS) == count;
    buckets, ok := seq(BUCKETS, _ => EMPTY), false;
    var total := 0;
    LoadNothing(docs, ids, n, buckets);
    if |target| == BUCKETS { BelowNothing(target, n); GroupIsTotal(target, n, BUCKETS); }
    if Matches(docs, ids, n, target) { MatchSize(docs, ids, n, target); }
    for s := 0 to n
      invariant LoadedPart(docs, ids, buckets, n, s, total) && (good ==> buckets == Below(target, n, s))
    {
      if good {
        MatchKey(docs, ids, n, target, s);
        ShardRoundTrip(docs, ids, n, target, s);
        BelowCount(target, n, s + 1);
        GroupMono(target, n, s + 1, n, BUCKETS);
      }
      if ShardKey(s, ids[s]) !in docs { return; }
      var doc := docs[ShardKey(s, ids[s])];
      IsVacant(docs, ids, buckets, n, s, total);
      var now, decoded := DecodeShard(doc, ids[s], s, n, buckets);
      if decoded { LoadMore(docs, ids, buckets, n, s, total, doc, now); PartCount(docs, ids, now, n, s + 1, total + doc.count); }
      if !decoded || doc.count > count - total { return; }
      total := total + doc.count;
      buckets := now;
    }
    if total != count {
      if good { BelowAll(target, n); PartCount(docs, ids, buckets, n, n, total); }
      return;
    }
    AllLoaded(docs, ids, buckets, n, total);
    if good { BelowAll(target, n); }
    ok := true;
  }

  lemma LoadNothing(docs: map<ShardKey, ShardDoc>, ids: seq<nat>, n: nat, buckets: seq<Bucket>)
    requires n > 1 && |ids| == n && buckets == seq(BUCKETS, _ => EMPTY)
    ensures LoadedPart(docs, ids, buckets, n, 0, 0)
  {
  }

  lemma BelowNothing(target: seq<Bucket>, n: nat)
    requires n > 0 && |target| == BUCKETS
    ensures Below(target, n, 0) == seq(BUCKETS, _ => EMPTY)
  {
  }

  lemma BelowAll(target: seq<Bucket>, n: nat)
    requires n > 0
    ensures Below(target, n, n) == target
  {
  }

  lemma BelowCount(target: seq<Bucket>, n: nat, k: nat)
    requires n > 0 && |target| == BUCKETS
    ensures GroupCount(Below(target, n, k), n, k, BUCKETS) == GroupCount(target, n, k, BUCKETS)
  {
    GroupSame(Below(target, n, k), target, n, k, BUCKETS);
  }

  lemma MatchSize(docs: map<ShardKey, ShardDoc>, ids: seq<nat>, n: nat, target: seq<Bucket>)
    requires Matches(docs, ids, n, target)
    ensures |target| == BUCKETS
  {
  }

  lemma MatchKey(docs: map<ShardKey, ShardDoc>, ids: seq<nat>, n: nat, target: seq<Bucket>, s: nat)
    requires Matches(docs, ids, n, target) && s < n
    ensures |ids| == n && ShardKey(s, ids[s]) in docs
  {
    assert ShardMatches(docs, ids[s], s, n, target);
  }

  lemma IsVacant(docs: map<ShardKey, ShardDoc>, ids: seq<nat>, buckets: seq<Bucket>, n: nat, s: nat, total: int)
    requires LoadedPart(docs, ids, buckets, n, s, total)
    ensures Vacant(buckets, s, n)
  {
  }

  lemma PartCount(docs: map<ShardKey, ShardDoc>, ids: seq<nat>, buckets: seq<Bucket>, n: nat, s: nat, total: int)
    requires LoadedPart(docs, ids, buckets, n, s, total)
    ensures |buckets| == BUCKETS && total == GroupCount(buckets, n, s, BUCKETS)
  {
  }

  lemma AllLoaded(docs: map<ShardKey, ShardDoc>, ids: seq<nat>, buckets: seq<Bucket>, n: nat, total: int)
    requires LoadedPart(docs, ids, buckets, n, n, total)
    ensures Consistent(buckets, n, total) && Matches(docs, ids, n, buckets)
  {
    GroupIsTotal(buckets, n, BUCKETS);
  }

  datatype LoadResult = Loaded(m: Manifest) | NotFound | CorruptManifest

  /** The manifest documents of version `v` describe exactly `m`. */
  ghost predicate Describes(st: Store, v: nat, m: Manifest) {
    && v in st.gens && m.version == v && m.sequence > 0 && m.count == CountUpTo(m.buckets, BUCKETS) && ValidShardCount(m.shards)
    && Normal(m.buckets, m.shards)
    && (if m.shards == 1 then m.ids == [] && st.gens[v] == PlainDoc(v, m.sequence, m.buckets, m.count)
        else st.gens[v] == GlobalDoc(v, m.sequence, m.shards, m.ids, m.count) && Matches(st.shardDocs, m.ids, m.shards, m.buckets))
  }

  /** Loads and checks a manifest: what it returns adds up, and a described manifest is
      returned exactly. */
  method LoadManifest(st: Store, v: nat, ghost expected: Manifest) returns (r: LoadResult)
    ensures r.Loaded? ==> r.m.version == v && r.m.count == CountUpTo(r.m.buckets, BUCKETS) && r.m.shards > 0
    ensures r.Loaded? && r.m.shards > 1 ==> Matches(st.shardDocs, r.m.ids, r.m.shards, r.m.buckets)
    ensures Describes(st, v, expected) ==> r == Loaded(expected)
  {
    hide Normal, CountUpTo, Matches;
    if v !in st.gens { return NotFound; }
    var doc := st.gens[v];
    if doc.version != v || doc.sequence == 0 || doc.count < 0 {
      CountNat(expected.buckets, BUCKETS);
      return CorruptManifest;
    }
    if doc.PlainDoc? {
      var ok := CheckCounts(doc.buckets, doc.count);
      if Describes(st, v, expected) { PlainCounts(expected); }
      return if ok then Loaded(Manifest(v, doc.sequence, doc.buckets, doc.count, 1, [])) else CorruptManifest;
    }
    if !ValidShardCount(doc.shards) || doc.shards == 1 || |doc.ids| != doc.shards {
      if Matches(st.shardDocs, expected.ids, expected.shards, expected.buckets) { MatchIds(st.shardDocs, expected.ids, expected.shards, expected.buckets); }
      return CorruptManifest;
    }
    var buckets, ok := LoadShards(st.shardDocs, doc.ids, doc.shards, doc.count, expected.buckets);
    if !ok { return CorruptManifest; }
    r := Loaded(Manifest(v, doc.sequence, buckets, doc.count, doc.shards, doc.ids));
  }

  lemma {:induction false} CountNat(buckets: seq<Bucket>, u: nat)
    requires u <= |buckets|
    ensures CountUpTo(buckets, u) >= 0
  {
    if u > 0 { CountNat(buckets, u - 1); }
  }

  lemma MatchIds(docs: map<ShardKey, ShardDoc>, ids: seq<nat>, n: nat, buckets: seq<Bucket>)
    requires Matches(docs, ids, n, buckets)
    ensures |ids| == n > 1
  {
  }

  lemma PlainCounts(m: Manifest)
    requires m.shards > 0 && Normal(m.buckets, m.shards)
    ensures forall i :: 0 <= i < BUCKETS ==> m.buckets[i].count >= 0
  {
  }

  /** No bucket count is negative or exceeds what is left of the total. */
  method CheckCounts(buckets: seq<Bucket>, count: int) returns (ok: bool)
    requires |buckets| == BUCKETS
    ensures ok <==> (forall i :: 0 <= i < BUCKETS ==> buckets[i].count >= 0) && CountUpTo(buckets, BUCKETS) == count
  {
    hide CountUpTo;
    var total := 0;
    CountStep(buckets, 0);
    for i := 0 to BUCKETS
      invariant total == CountUpTo(buckets, i) && forall j :: 0 <= j < i ==> buckets[j].count >= 0
    {
      CountStep(buckets, i);
      CountMono(buckets, i + 1, BUCKETS);
      if buckets[i].count < 0 || buckets[i].count > count - total { return false; }
      total := total + buckets[i].count;
    }
    ok := total == count;
  }

  lemma CountStep(buckets: seq<Bucket>, i: nat)
    requires i < |buckets|
    ensures CountUpTo(buckets, 0) == 0
    ensures CountUpTo(buckets, i + 1) == CountUpTo(buckets, i) + if buckets[i].count > 0 then buckets[i].count else 0
  {
  }

  lemma {:induction false} CountMono(buckets: seq<Bucket>, i: nat, j: nat)
    requires i <= j <= |buckets|
    ensures CountUpTo(buckets, i) <= CountUpTo(buckets, j)
  {
    if i < j { CountMono(buckets, i, j - 1); }
  }

  // ----- the next manifest -----

  function NewIds(ids: seq<nat>, changed: set<nat>, id: nat): seq<nat> {
    seq(|ids|, s requires 0 <= s < |ids| => if s in changed then id else ids[s])
  }

  ghost predicate WrittenFor(docs: map<ShardKey, ShardDoc>, written: set<nat>, id: nat, n: nat, buckets: seq<Bucket>)
    requires n > 0 && |buckets| == BUCKETS
  {
    && (forall k {:trigger k in docs} :: k in docs ==> k.id == id && k.shard in written)
    && (forall s {:trigger s in written} :: s in written ==> ShardMatches(docs, id, s, n, buckets))
  }

  lemma WriteNone(id: nat, n: nat, buckets: seq<Bucket>)
    requires n > 0 && |buckets| == BUCKETS
    ensures WrittenFor(map[], {}, id, n, buckets)
  {
  }

  lemma WriteOne(docs: map<ShardKey, ShardDoc>, written: set<nat>, id: nat, n: nat, buckets: seq<Bucket>, s: nat, sm: ShardDoc)
    requires n > 0 && |buckets| == BUCKETS && WrittenFor(docs, written, id, n, buckets)
    requires sm == ShardDoc(id, s, Entries(buckets, s, n, BUCKETS), OwnCount(buckets, s, n, BUCKETS))
    ensures WrittenFor(docs[ShardKey(s, id) := sm], written + {s}, id, n, buckets)
  {
    hide Entries, OwnCount;
    forall t | t in written + {s} ensures ShardMatches(docs[ShardKey(s, id) := sm], id, t, n, buckets) {
      if t != s { assert ShardMatches(docs, id, t, n, buckets); }
    }
  }

  function Bared(buckets: BucketArray): BucketArray {
    seq(BUCKETS, i requires 0 <= i < BUCKETS => Bare(buckets[i]))
  }

  /** Documents of the next manifest: new shard manifests for the changed shards, the
      old ones kept for the rest. */
  method NextManifest(next: Manifest, changed: set<nat>, id: nat) returns (doc: GenDoc, docs: map<ShardKey, ShardDoc>, ids: seq<nat>)
    requires next.shards > 0
    ensures next.shards == 1 ==> docs == map[] && ids == next.ids && doc == PlainDoc(next.version, next.sequence, Bared(next.buckets), next.count)
    ensures next.shards > 1 ==>
              && doc == GlobalDoc(next.version, next.sequence, next.shards, ids, next.count) && ids == NewIds(next.ids, changed, id)
              && WrittenFor(docs, changed, id, next.shards, next.buckets)
  {
    hide WrittenFor;
    docs, ids := map[], next.ids;
    if next.shards == 1 {
      return PlainDoc(next.version, next.sequence, Bared(next.buckets), next.count), map[], ids;
    }
    var todo := changed;
    WriteNone(id, next.shards, next.buckets);
    assert changed - todo == {};
    while |todo| > 0
      invariant todo <= changed && WrittenFor(docs, changed - todo, id, next.shards, next.buckets)
      decreases |todo|
    {
      SomeNumber(todo);
      var s :| s in todo;
      var sm := MakeShardDoc(next.buckets, s, next.shards, id);
      WriteOne(docs, changed - todo, id, next.shards, next.buckets, s, sm);
      docs := docs[ShardKey(s, id) := sm];
      assert changed - (todo - {s}) == (changed - todo) + {s};
      todo := todo - {s};
    }
    assert changed - todo == changed;
    ids := NewIds(next.ids, changed, id);
    doc := GlobalDoc(next.version, next.sequence, next.shards, ids, next.count);
  }
}
