/** The two views of a write meet: what the bucketed writes prepare are plans as the
    transition system of the store demands them, from the created collection on. */
module WritePlans {
  import opened Matching
  import opened BucketStorage
  import opened Dictionaries
  import opened Manifests
  import opened VersionedWrites
  import opened WordOrder
  import P = VersionedStore

  /** Digests as the numbers that name chunks in the store. */
  type Naming = Hash -> nat

  function NsOf(place: Place): P.Ns { if place.InShard? then P.Shard(place.n) else P.Global }

  function ChunkOf(name: Naming, place: Place, h: Hash): P.Key { P.ChunkKey(NsOf(place), name(h)) }

  // ----- generations as documents of the store -----

  /** Chunks of the buckets of shard `s` of `n`. */
  ghost function ShardRefs(name: Naming, buckets: BucketArray, s: nat, n: nat): set<P.Key>
    requires n > 0
  {
    set i: nat, h | i < BUCKETS && i % n == s && h in buckets[i].chunks :: ChunkOf(name, buckets[i].place, h)
  }

  ghost function GenRefs(name: Naming, buckets: BucketArray, n: nat, ids: seq<nat>): set<P.Key>
    requires n > 0
  {
    if n == 1 then ShardRefs(name, buckets, 0, 1) else set s: nat | s < |ids| :: P.ManifestKey(s, ids[s])
  }

  /** The store's documents describe generation `m`. */
  ghost predicate Encodes(docs: P.Docs, name: Naming, m: Manifest) {
    && m.shards > 0 && P.GenKey(m.version) in docs && (m.shards > 1 ==> |m.ids| == m.shards)
    && docs[P.GenKey(m.version)] == P.RefDoc(m.sequence, GenRefs(name, m.buckets, m.shards, m.ids))
    && (m.shards > 1 ==> forall s {:trigger m.ids[s]} :: 0 <= s < m.shards ==> ShardEncoded(docs, name, m, s))
  }

  ghost predicate ShardEncoded(docs: P.Docs, name: Naming, m: Manifest, s: nat)
    requires m.shards > 0 && s < |m.ids|
  {
    var k := P.ManifestKey(s, m.ids[s]);
    k in docs && docs[k].RefDoc? && docs[k].refs == ShardRefs(name, m.buckets, s, m.shards)
  }

  /** The generation of a collection created in a layout of `n` shards. */
  function FirstGeneration(n: nat): Manifest {
    Manifest(0, 1, seq(BUCKETS, _ => EMPTY), 0, n, if n == 1 then [] else seq(n, _ => 0))
  }

  /** A collection created in a layout of `n` shards. */
  ghost predicate Created(s: P.State, n: nat) {
    P.Initial(s) && n > 0 && s.docs[P.GenKey(0)].refs == if n == 1 then {} else set i: nat | i < n :: P.ManifestKey(i, 0)
  }

  /** A created collection's documents encode the empty generation. */
  lemma CreatedEncodes(s: P.State, n: nat, name: Naming)
    requires Created(s, n)
    ensures Encodes(s.docs, name, FirstGeneration(n))
  {
    var m := FirstGeneration(n);
    forall i: nat ensures ShardRefs(name, m.buckets, i, n) == {} { }
    if n == 1 {
      assert ShardRefs(name, m.buckets, 0, 1) == {};
    } else {
      assert |m.ids| == n && forall i: nat :: i < n ==> P.ManifestKey(i, m.ids[i]) == P.ManifestKey(i, 0);
      assert GenRefs(name, m.buckets, n, m.ids) == set i: nat | i < n :: P.ManifestKey(i, 0);
      forall i | 0 <= i < n ensures ShardEncoded(s.docs, name, m, i) {
        assert P.ManifestKey(i, 0) in s.docs[P.GenKey(0)].refs;
      }
    }
  }

  // ----- one write -----

  /** A write: the generation as readers load it, the shards that get a new manifest, and
      the chunks staged. */
  datatype Write = Write(next: Manifest, changed: set<nat>, stages: Chunks)

  /** A write from generation `m`: a bucket refers to staged chunks or is the old one, and
      a shard gets a new manifest or keeps the old one with all its buckets. */
  ghost predicate WriteFrom(m: Manifest, w: Write) {
    && m.shards > 0 && w.next.shards > 0 && w.next.sequence == m.sequence + 1
    && (w.next.shards > 1 ==> |w.next.ids| == w.next.shards) && (w.next.shards == 1 ==> w.changed == {})
    && (forall s :: s in w.changed ==> s < w.next.shards)
    && (forall i {:trigger BucketSourced(m, w, i)} :: 0 <= i < BUCKETS ==> BucketSourced(m, w, i))
    && (w.next.shards > 1 ==> forall s {:trigger ShardSourced(m, w, s)} :: 0 <= s < w.next.shards ==> ShardSourced(m, w, s))
  }

  ghost predicate BucketSourced(m: Manifest, w: Write, i: nat)
    requires i < BUCKETS
  {
    StagedIn(w.next.buckets[i], w.stages) || (w.next.shards == m.shards && w.next.buckets[i] == m.buckets[i])
  }

  ghost predicate ShardSourced(m: Manifest, w: Write, s: nat)
    requires s < |w.next.ids| && w.next.shards > 0
  {
    if s in w.changed then w.next.ids[s] == w.next.version
    else
      && w.next.shards == m.shards && s < |m.ids| && w.next.ids[s] == m.ids[s]
      && (forall i {:trigger w.next.buckets[i]} :: 0 <= i < BUCKETS && i % m.shards == s ==> w.next.buckets[i] == m.buckets[i])
  }

  /** New documents: the generation, and a manifest for each changed shard. */
  ghost function NewDocs(name: Naming, w: Write): P.Docs
    requires w.next.shards > 0
  {
    map[P.GenKey(w.next.version) := P.RefDoc(w.next.sequence, GenRefs(name, w.next.buckets, w.next.shards, w.next.ids))] +
    map s | s in w.changed :: P.ManifestKey(s, w.next.version) := P.RefDoc(0, ShardRefs(name, w.next.buckets, s, w.next.shards))
  }

  ghost function ToStage(name: Naming, w: Write): set<P.Key>
    requires w.next.shards > 0
  {
    NewDocs(name, w).Keys + set k | k in w.stages :: ChunkOf(name, k.place, k.hash)
  }

  /** Every chunk of a written generation is staged with it or was in the same shard of
      the old one. */
  lemma ChunkSourced(name: Naming, m: Manifest, w: Write, s: nat, n: nat, r: P.Key)
    requires WriteFrom(m, w) && n > 0 && r in ShardRefs(name, w.next.buckets, s, n)
    ensures r.ChunkKey? && (r in ToStage(name, w) || (w.next.shards == m.shards && r in ShardRefs(name, m.buckets, s, n)))
  {
    var i: nat, h :| i < BUCKETS && i % n == s && h in w.next.buckets[i].chunks && ChunkOf(name, w.next.buckets[i].place, h) == r;
    assert BucketSourced(m, w, i);
    if StagedIn(w.next.buckets[i], w.stages) {
      var k := BucketStorage.ChunkKey(w.next.buckets[i].place, h);
      assert k in w.stages && ChunkOf(name, k.place, k.hash) == r;
    }
  }

  lemma GenSourced(docs: P.Docs, name: Naming, m: Manifest, w: Write, r: P.Key)
    requires Encodes(docs, name, m) && WriteFrom(m, w) && r in GenRefs(name, w.next.buckets, w.next.shards, w.next.ids)
    ensures !r.GenKey? && (r in ToStage(name, w) || r in docs[P.GenKey(m.version)].refs)
  {
    if w.next.shards == 1 {
      ChunkSourced(name, m, w, 0, 1, r);
    } else {
      var s: nat :| s < |w.next.ids| && r == P.ManifestKey(s, w.next.ids[s]);
      assert ShardSourced(m, w, s);
      if s in w.changed { assert r in NewDocs(name, w); }
    }
  }

  lemma ManifestSourced(docs: P.Docs, name: Naming, m: Manifest, w: Write, s: nat, r: P.Key)
    requires Encodes(docs, name, m) && WriteFrom(m, w) && s in w.changed && r in ShardRefs(name, w.next.buckets, s, w.next.shards)
    ensures r.ChunkKey? && (r in ToStage(name, w) || P.Reaches(docs, m.version, r))
  {
    ChunkSourced(name, m, w, s, w.next.shards, r);
    if w.next.shards == m.shards && r in ShardRefs(name, m.buckets, s, m.shards) {
      assert s < m.shards && ShardEncoded(docs, name, m, s) by { assert m.ids[s] == m.ids[s]; }
      assert P.ManifestKey(s, m.ids[s]) in GenRefs(name, m.buckets, m.shards, m.ids);
      assert P.ViaManifest(docs, m.version, P.ManifestKey(s, m.ids[s]), r);
    }
  }

  /** The documents and chunks of a write form a plan: whatever the new generation
      reaches is staged now or reached by the expected generation. */
  lemma WriteIsPlan(docs: P.Docs, name: Naming, m: Manifest, w: Write)
    requires Encodes(docs, name, m) && WriteFrom(m, w)
    ensures P.PlanOk(docs, w.next.version, m.version, NewDocs(name, w), ToStage(name, w))
  {
    hide GenRefs, ShardRefs;
    var more, toStage := NewDocs(name, w), ToStage(name, w);
    forall k | k in more ensures P.NewDoc(docs, w.next.version, m.version, more, toStage, k) {
      if k == P.GenKey(w.next.version) {
        forall r | r in more[k].refs ensures !r.GenKey? && (r in toStage || r in docs[P.GenKey(m.version)].refs) {
          GenSourced(docs, name, m, w, r);
        }
      } else {
        forall r | r in more[k].refs ensures r.ChunkKey? && (r in toStage || P.Reaches(docs, m.version, r)) {
          ManifestSourced(docs, name, m, w, k.shard, r);
        }
      }
    }
  }

  /** No document of the write exists yet. */
  ghost predicate NewTo(docs: P.Docs, id: nat) {
    forall k :: k in docs ==> k != P.GenKey(id) && !(k.ManifestKey? && k.id == id)
  }

  /** The extended documents encode the new generation. */
  lemma WriteEncodes(docs: P.Docs, name: Naming, m: Manifest, w: Write)
    requires Encodes(docs, name, m) && WriteFrom(m, w) && NewTo(docs, w.next.version)
    ensures Encodes(docs + NewDocs(name, w), name, w.next)
  {
    hide GenRefs;
    var all := docs + NewDocs(name, w);
    if w.next.shards > 1 {
      forall s | 0 <= s < w.next.shards ensures ShardEncoded(all, name, w.next, s) {
        assert ShardSourced(m, w, s);
        if s !in w.changed {
          assert ShardEncoded(docs, name, m, s) by { assert m.ids[s] == m.ids[s]; }
          SameRefs(name, m.buckets, w.next.buckets, s, m.shards);
        }
      }
    }
  }

  lemma SameRefs(name: Naming, a: BucketArray, b: BucketArray, s: nat, n: nat)
    requires n > 0 && forall i {:trigger b[i]} :: 0 <= i < BUCKETS && i % n == s ==> b[i] == a[i]
    ensures ShardRefs(name, a, s, n) == ShardRefs(name, b, s, n)
  {
    SubRefs(name, a, b, s, n);
    SubRefs(name, b, a, s, n);
  }

  lemma SubRefs(name: Naming, a: BucketArray, b: BucketArray, s: nat, n: nat)
    requires n > 0 && forall i :: 0 <= i < BUCKETS && i % n == s ==> b[i] == a[i]
    ensures ShardRefs(name, a, s, n) <= ShardRefs(name, b, s, n)
  {
    forall k | k in ShardRefs(name, a, s, n) ensures k in ShardRefs(name, b, s, n) {
      var i: nat, h :| i < BUCKETS && i % n == s && h in a[i].chunks && ChunkOf(name, a[i].place, h) == k;
      assert b[i] == a[i];
    }
  }

  /** Earlier generations stay encoded. */
  lemma EncodesKept(docs: P.Docs, name: Naming, m: Manifest, w: Write)
    requires Encodes(docs, name, m) && w.next.shards > 0 && NewTo(docs, w.next.version)
    ensures Encodes(docs + NewDocs(name, w), name, m)
  {
    hide GenRefs, ShardRefs;
    var all := docs + NewDocs(name, w);
    if m.shards > 1 {
      forall s | 0 <= s < m.shards ensures ShardEncoded(all, name, m, s) {
        assert ShardEncoded(docs, name, m, s) by { assert m.ids[s] == m.ids[s]; }
      }
    }
  }

  // ----- any number of writes -----

  ghost function DocsAfter(docs: P.Docs, name: Naming, ws: seq<Write>): P.Docs
    requires forall i :: 0 <= i < |ws| ==> ws[i].next.shards > 0
  {
    if ws == [] then docs else DocsAfter(docs, name, ws[..|ws| - 1]) + NewDocs(name, ws[|ws| - 1])
  }

  /** The `i`th generation: the first, or what the write before it made. */
  ghost function GenerationAt(first: Manifest, ws: seq<Write>, i: nat): Manifest
    requires i <= |ws|
  {
    if i == 0 then first else ws[i - 1].next
  }

  /** Every write starts from some earlier generation, under a new id. */
  ghost predicate Writes(docs: P.Docs, name: Naming, first: Manifest, ws: seq<Write>) {
    && (forall i :: 0 <= i < |ws| ==> ws[i].next.shards > 0)
    && (forall i {:trigger WriteAt(docs, name, first, ws, i)} :: 0 <= i < |ws| ==> WriteAt(docs, name, first, ws, i))
  }

  ghost predicate WriteAt(docs: P.Docs, name: Naming, first: Manifest, ws: seq<Write>, i: nat)
    requires i < |ws| && forall j :: 0 <= j < |ws| ==> ws[j].next.shards > 0
  {
    && (exists e: nat :: e <= i && WriteFrom(GenerationAt(first, ws, e), ws[i]))
    && NewTo(DocsAfter(docs, name, ws[..i]), ws[i].next.version)
  }

  /** From an encoded first generation, any number of writes, each from any generation
      made so far, keeps every generation encoded; so each of them was planned as the
      transition system demands. */
  lemma {:induction false} WritesStayEncoded(docs: P.Docs, name: Naming, first: Manifest, ws: seq<Write>, g: nat)
    requires Encodes(docs, name, first) && Writes(docs, name, first, ws) && g <= |ws|
    ensures Encodes(DocsAfter(docs, name, ws), name, GenerationAt(first, ws, g))
    ensures g < |ws| ==>
              exists e: nat :: e <= g &&
                P.PlanOk(DocsAfter(docs, name, ws[..g]), ws[g].next.version, GenerationAt(first, ws, e).version, NewDocs(name, ws[g]), ToStage(name, ws[g]))
    decreases |ws|
  {
    hide Encodes, WriteFrom, NewDocs, ToStage, P.PlanOk, NewTo;
    if ws != [] {
      var n := |ws| - 1;
      var front, w := ws[..n], ws[n];
      WritesFront(docs, name, first, ws);
      assert WriteAt(docs, name, first, ws, n);
      var e: nat :| e <= n && WriteFrom(GenerationAt(first, ws, e), w);
      assert GenerationAt(first, front, e) == GenerationAt(first, ws, e);
      WritesStayEncoded(docs, name, first, front, e);
      WriteIsPlan(DocsAfter(docs, name, front), name, GenerationAt(first, ws, e), w);
      if g <= n {
        assert GenerationAt(first, front, g) == GenerationAt(first, ws, g);
        WritesStayEncoded(docs, name, first, front, g);
        EncodesKept(DocsAfter(docs, name, front), name, GenerationAt(first, ws, g), w);
        if g < n { assert front[g] == ws[g] && front[..g] == ws[..g]; EarlierPlan(docs, name, first, ws, g); }
      } else {
        WriteEncodes(DocsAfter(docs, name, front), name, GenerationAt(first, ws, e), w);
      }
    }
  }

  lemma WritesFront(docs: P.Docs, name: Naming, first: Manifest, ws: seq<Write>)
    requires Writes(docs, name, first, ws) && ws != []
    ensures Writes(docs, name, first, ws[..|ws| - 1])
  {
    hide WriteFrom, NewTo, NewDocs;
    var front := ws[..|ws| - 1];
    forall i | 0 <= i < |front| ensures WriteAt(docs, name, first, front, i) {
      assert WriteAt(docs, name, first, ws, i);
      var e: nat :| e <= i && WriteFrom(GenerationAt(first, ws, e), ws[i]);
      assert GenerationAt(first, front, e) == GenerationAt(first, ws, e) && front[..i] == ws[..i];
    }
  }

  lemma EarlierPlan(docs: P.Docs, name: Naming, first: Manifest, ws: seq<Write>, g: nat)
    requires Writes(docs, name, first, ws) && g + 1 < |ws|
    requires var front := ws[..|ws| - 1];
             exists e: nat :: e <= g &&
               P.PlanOk(DocsAfter(docs, name, front[..g]), front[g].next.version, GenerationAt(first, front, e).version, NewDocs(name, front[g]), ToStage(name, front[g]))
    ensures exists e: nat :: e <= g &&
              P.PlanOk(DocsAfter(docs, name, ws[..g]), ws[g].next.version, GenerationAt(first, ws, e).version, NewDocs(name, ws[g]), ToStage(name, ws[g]))
  {
    hide NewDocs, ToStage, P.PlanOk;
    var front := ws[..|ws| - 1];
    assert front[g] == ws[g] && front[..g] == ws[..g];
    var e: nat :| e <= g &&
      P.PlanOk(DocsAfter(docs, name, front[..g]), front[g].next.version, GenerationAt(first, front, e).version, NewDocs(name, front[g]), ToStage(name, front[g]));
    assert GenerationAt(first, front, e) == GenerationAt(first, ws, e);
  }

  // ----- the writes of the collection -----

  /** An add, remove or replace that changes something is such a write. */
  lemma ChangeIsWrite(m: Manifest, id: nat, c: Change)
    requires m.shards > 0 && (m.shards > 1 ==> |m.ids| == m.shards) && Touched(m.buckets, m.shards, c) && EmptiesBare(c.buckets) && EmptiesBare(m.buckets)
    requires forall i :: 0 <= i < BUCKETS && m.buckets[i].count <= 0 ==> m.buckets[i] == EMPTY
    ensures WriteFrom(m, Write(Published(NextManifestOf(m, id, c), c.changed), if m.shards == 1 then {} else c.changed, c.stages))
  {
    var next := Published(NextManifestOf(m, id, c), c.changed);
    var w := Write(next, if m.shards == 1 then {} else c.changed, c.stages);
    forall i | 0 <= i < BUCKETS ensures BucketSourced(m, w, i) {
      assert c.buckets[i] == m.buckets[i] || StagedIn(c.buckets[i], c.stages);
    }
    if m.shards > 1 {
      forall s | 0 <= s < m.shards ensures ShardSourced(m, w, s) {
        if s !in c.changed {
          forall i | 0 <= i < BUCKETS && i % m.shards == s ensures next.buckets[i] == m.buckets[i] {
            assert c.buckets[i] == m.buckets[i];
          }
        }
      }
    }
  }

  /** So is a reshard to another layout: everything is staged anew. */
  lemma ReshardIsWrite(m: Manifest, id: nat, target: nat, c: Change)
    requires m.shards > 0 && target > 0 && EmptiesBare(c.buckets) && AllStaged(c) && AllChanged(target, c.changed)
    ensures WriteFrom(m, Write(Published(ReshardedOf(m, id, target, c), c.changed), c.changed, c.stages))
  {
    var next := Published(ReshardedOf(m, id, target, c), c.changed);
    var w := Write(next, c.changed, c.stages);
    forall i | 0 <= i < BUCKETS ensures BucketSourced(m, w, i) {
      assert StagedIn(c.buckets[i], c.stages);
    }
    if target > 1 {
      forall s | 0 <= s < target ensures ShardSourced(m, w, s) { assert s in c.changed; }
    }
  }

  lemma RepresentsShape(st: Store, m: Manifest, words: Contents, number: Numbering)
    requires Represents(st, m, words, number)
    ensures m.shards > 0 && (m.shards > 1 ==> |m.ids| == m.shards) && EmptiesBare(m.buckets)
    ensures forall i :: 0 <= i < BUCKETS && m.buckets[i].count <= 0 ==> m.buckets[i] == EMPTY
  {
    forall i | 0 <= i < BUCKETS ensures EmptyIsBare(m.buckets[i]) && (m.buckets[i].count <= 0 ==> m.buckets[i] == EMPTY) {
      assert m.buckets[i] == m.buckets[i];
    }
  }

  /** A change as the collection makes it, with its plan: the transition system accepts
      it, and afterwards store and documents agree on the new generation. */
  method PlannedChange(st: Store, v: nat, input: seq<Word>, mode: Mode, id: nat, size: Word -> nat, number: Numbering,
                       ghost docs: P.Docs, ghost name: Naming, ghost m: Manifest, ghost words: Contents)
    returns (r: WriteResult, ghost now: Manifest, ghost after: Contents, ghost w: Write)
    requires Rising(input) && NumberingOk(number)
    ensures Represents(st, m, words, number) && m.version == v && FreshId(st, id) && Encodes(docs, name, m) && NewTo(docs, id) ==>
              && r.Written? && Represents(r.st, now, after, number)
              && (mode == Add ==> Dict(after) == Dict(words) + Members(input))
              && (mode == Remove ==> Dict(after) == Dict(words) - Members(input))
              && (mode == Replace ==> Dict(after) == Members(input))
              && (if r.added == 0 && r.removed == 0 then now == m
                  else
                    && w.next == now && now.version == id && WriteFrom(m, w)
                    && P.PlanOk(docs, id, v, NewDocs(name, w), ToStage(name, w))
                    && Encodes(docs + NewDocs(name, w), name, now))
  {
    hide Represents, Encodes, FreshId, NewTo, Rising, Members, Outcome, DictUpTo, NewDocs, ToStage, P.PlanOk, WriteFrom, Touched, EmptiesBare, NumberingOk;
    ghost var c;
    r, now, after, c := ChangeCollection(st, v, input, mode, id, size, number, m, words);
    w := Write(now, if m.shards == 1 then {} else c.changed, c.stages);
    if && Represents(st, m, words, number) && m.version == v && FreshId(st, id) && Encodes(docs, name, m) && NewTo(docs, id)
       && (r.added != 0 || r.removed != 0)
    {
      RepresentsShape(st, m, words, number);
      ChangeIsWrite(m, id, c);
      WriteIsPlan(docs, name, m, w);
      WriteEncodes(docs, name, m, w);
    }
  }

  /** A reshard with its plan. */
  method PlannedReshard(st: Store, v: nat, target: nat, id: nat, size: Word -> nat, ghost number: Numbering,
                        ghost docs: P.Docs, ghost name: Naming, ghost m: Manifest, ghost words: Contents)
    returns (r: WriteResult, ghost now: Manifest, ghost w: Write)
    ensures ValidShardCount(target) && Represents(st, m, words, number) && m.version == v && FreshId(st, id) && Encodes(docs, name, m) && NewTo(docs, id) ==>
              && r.Written? && Represents(r.st, now, words, number) && now.shards == target
              && (if target == m.shards then now == m
                  else
                    && w.next == now && now.version == id && WriteFrom(m, w)
                    && P.PlanOk(docs, id, v, NewDocs(name, w), ToStage(name, w))
                    && Encodes(docs + NewDocs(name, w), name, now))
  {
    hide Represents, Encodes, FreshId, NewTo, NewDocs, ToStage, P.PlanOk, WriteFrom, EmptiesBare, AllStaged, AllChanged, ValidShardCount;
    ghost var c;
    r, now, c := Reshard(st, v, target, id, size, number, m, words);
    w := Write(now, c.changed, c.stages);
    if && ValidShardCount(target) && Represents(st, m, words, number) && m.version == v && FreshId(st, id) && Encodes(docs, name, m) && NewTo(docs, id)
       && target != m.shards
    {
      RepresentsShape(st, m, words, number);
      SomeShard(target);
      ReshardIsWrite(m, id, target, c);
      WriteIsPlan(docs, name, m, w);
      WriteEncodes(docs, name, m, w);
    }
  }
}
