/** What every step of the versioned store keeps. */
module VersionedInvariant {
  import opened VersionedStore

  // ----- records -----

  /** Stored records have the content they were prepared with. */
  ghost predicate Contents(docs: Docs, store: map<Key, Doc>) {
    forall k {:trigger k in store} :: k in store ==> Known(docs, k) && store[k] == Content(docs, k)
  }

  function Owner(k: Key): nat {
    match k
    case GenKey(g) => g
    case ManifestKey(_, id) => id
    case ChunkKey(_, _) => 0
  }

  /** Prepared documents refer to chunks and to prepared manifests, and belong to the
      first generation or to a writer that planned them. */
  ghost predicate DocOk(docs: Docs, writers: map<nat, Writer>, k: Key)
    requires k in docs
  {
    && docs[k].RefDoc? && !k.ChunkKey?
    && (Owner(k) == 0 || (Owner(k) in writers && writers[Owner(k)].plan.Change?))
    && (k.GenKey? ==> forall r :: r in docs[k].refs ==> !r.GenKey? && (r.ManifestKey? ==> r in docs))
    && (k.ManifestKey? ==> forall r :: r in docs[k].refs ==> r.ChunkKey?)
  }

  ghost predicate DocsOk(docs: Docs, writers: map<nat, Writer>) {
    forall k {:trigger k in docs} :: k in docs ==> DocOk(docs, writers, k)
  }

  ghost predicate RefsStored(docs: Docs, store: map<Key, Doc>, k: Key)
    requires k in docs && docs[k].RefDoc?
  {
    forall r :: r in docs[k].refs ==> r in store
  }

  /** A generation's manifest and everything it refers to is stored. */
  ghost predicate Intact(docs: Docs, store: map<Key, Doc>, g: nat) {
    && Known(docs, GenKey(g)) && GenKey(g) in store && RefsStored(docs, store, GenKey(g))
    && (forall m :: m in docs[GenKey(g)].refs && m.ManifestKey? ==> Known(docs, m) && RefsStored(docs, store, m))
  }

  /** Intact means that every record reached is stored. */
  lemma IntactReaches(docs: Docs, store: map<Key, Doc>, g: nat)
    ensures Intact(docs, store, g) <==>
              && Known(docs, GenKey(g)) && (forall k :: Reaches(docs, g, k) ==> k in store)
              && (forall m :: m in docs[GenKey(g)].refs && m.ManifestKey? ==> Known(docs, m))
  {
    if Intact(docs, store, g) {
      forall k | Reaches(docs, g, k) ensures k in store {
        if m :| ViaManifest(docs, g, m, k) { assert RefsStored(docs, store, m); }
      }
    }
    if && Known(docs, GenKey(g)) && (forall k :: Reaches(docs, g, k) ==> k in store)
       && (forall m :: m in docs[GenKey(g)].refs && m.ManifestKey? ==> Known(docs, m))
    {
      assert Reaches(docs, g, GenKey(g));
      forall r | r in docs[GenKey(g)].refs ensures r in store { assert Reaches(docs, g, r); }
      forall m | m in docs[GenKey(g)].refs && m.ManifestKey? ensures RefsStored(docs, store, m) {
        forall r | r in docs[m].refs ensures r in store {
          assert ViaManifest(docs, g, m, r);
          assert Reaches(docs, g, r);
        }
      }
    }
  }

  /** The active generation and every generation under an unexpired reader lease. */
  ghost predicate Protected(time: Time, docs: Docs, store: map<Key, Doc>, active: nat, leases: Leases) {
    && Intact(docs, store, active)
    && (forall id {:trigger Reading(time, leases, id)} :: Reading(time, leases, id) ==> Intact(docs, store, leases[id].gen))
  }

  /** Every stored record is registered, and nothing else is. */
  ghost predicate Registered(disk: Disk) {
    && (forall g {:trigger GenKey(g)} :: GenKey(g) in disk.store <==> g in disk.scores)
    && (forall k: Key {:trigger k in disk.registry} {:trigger k in disk.store} :: !k.GenKey? ==> (k in disk.store <==> k in disk.registry))
    && (forall k {:trigger k in disk.registry} :: k in disk.registry ==> !k.GenKey?)
  }

  // ----- writers -----

  /** No writer lease is valid during maintenance. */
  ghost predicate Exclusive(time: Time, nodes: Nodes) {
    Locked(time, nodes, Global) ==> forall id :: !Writing(time, nodes, Global, id)
  }

  /** Where the records of a planned generation come from. */
  ghost predicate Sourced(docs: Docs, id: nat, w: Writer)
    requires w.plan.Change?
  {
    && Known(docs, GenKey(id)) && Known(docs, GenKey(w.expected)) && GenKey(id) in w.plan.toStage
    && docs[GenKey(id)].sequence == docs[GenKey(w.expected)].sequence + 1
    && (forall k :: k in w.plan.toStage ==> Known(docs, k) && (k.GenKey? ==> k.gen == id))
    && (forall r :: r in docs[GenKey(id)].refs ==> r in w.plan.toStage || r in docs[GenKey(w.expected)].refs)
    && (forall m {:trigger NewManifest(docs, id, w, m)} :: m in w.plan.toStage && m.ManifestKey? ==> NewManifest(docs, id, w, m))
  }

  ghost predicate NewManifest(docs: Docs, id: nat, w: Writer, m: Key)
    requires w.plan.Change?
  {
    !m.ChunkKey? && Known(docs, m) && forall r :: r in docs[m].refs ==> r in w.plan.toStage || Reaches(docs, w.expected, r)
  }

  ghost predicate WriterOk(docs: Docs, committed: map<nat, nat>, used: set<nat>, id: nat, w: Writer) {
    && id != 0 && id in used && w.expected in committed && w.expected != id && (!w.plan.Change? ==> w.staged == {})
    && (w.plan.Change? ==> Sourced(docs, id, w) && w.staged <= w.plan.toStage && w.plan.result.previous == w.expected && w.plan.result.version == id)
  }

  ghost predicate WritersOk(docs: Docs, committed: map<nat, nat>, used: set<nat>, writers: map<nat, Writer>) {
    0 in used && forall id {:trigger id in writers} :: id in writers ==> WriterOk(docs, committed, used, id, writers[id])
  }

  /** Only opened writers have leases, and what an unexpired writer staged is stored. */
  ghost predicate StagedKept(time: Time, nodes: Nodes, store: map<Key, Doc>, writers: map<nat, Writer>) {
    && (forall id {:trigger Writing(time, nodes, Global, id)} :: Writing(time, nodes, Global, id) ==>
          id in writers && (forall k :: k in writers[id].staged ==> k in store))
  }

  // ----- the commit log -----

  function GenAt(commits: seq<Commit>, i: nat): nat
    requires i <= |commits|
  {
    if i == 0 then 0 else commits[i - 1].version
  }

  /** Commits form one chain from generation 0 to the active one, each one sequence
      number further, and each with its receipt. */
  ghost predicate Chain(docs: Docs, active: nat, log: Log) {
    && active == GenAt(log.commits, |log.commits|)
    && (forall i {:trigger Numbered(docs, log, i)} :: 0 <= i <= |log.commits| ==> Numbered(docs, log, i))
    && (forall i {:trigger Recorded(log, i)} :: 0 <= i < |log.commits| ==> Recorded(log, i))
    && (forall g {:trigger g in log.committed} :: g in log.committed ==> InChain(log.commits, g))
    && (forall op {:trigger op in log.receipts} :: op in log.receipts ==> op != 0)
  }

  ghost predicate InChain(commits: seq<Commit>, g: nat) {
    exists i :: 0 <= i <= |commits| && GenAt(commits, i) == g
  }

  ghost predicate Numbered(docs: Docs, log: Log, i: nat)
    requires i <= |log.commits|
  {
    var g := GenAt(log.commits, i);
    g in log.committed && log.committed[g] == i + 1 && Known(docs, GenKey(g)) && Sequence(docs, g) == i + 1
  }

  ghost predicate Recorded(log: Log, i: nat)
    requires i < |log.commits|
  {
    var c := log.commits[i];
    && c.previous == GenAt(log.commits, i)
    && c.version in log.receipts && log.receipts[c.version].previous == c.previous && log.receipts[c.version].version == c.version
  }

  /** Readers' generations were committed. */
  ghost predicate LeasesOk(leases: Leases, committed: map<nat, nat>, used: set<nat>) {
    forall id {:trigger id in leases} :: id in leases ==> leases[id].gen in committed && id in used
  }

  // ----- pruners -----

  /** What a pruner collected covers every generation it keeps. */
  ghost predicate Covers(docs: Docs, p: Pruner) {
    && (p.phase != Sweep ==> p.refs == {} && p.toRead == {})
    && (p.phase == Sweep ==> forall g {:trigger g in p.keep} :: g in p.keep ==> GenKey(g) in p.toRead || ReadIn(docs, p.refs, GenKey(g)))
    && (forall m {:trigger m in p.refs} :: m in p.refs ==> !m.GenKey? && (m.ManifestKey? ==> m in p.toRead || ReadIn(docs, p.refs, m)))
    && (p.dead != {} ==> p.phase == Sweep && p.toRead == {})
    && (forall k {:trigger k in p.dead} :: k in p.dead ==> k !in p.refs && (k.GenKey? ==> k.gen in p.listed && k.gen !in p.keep))
  }

  ghost predicate ReadIn(docs: Docs, refs: set<Key>, k: Key) {
    !k.ChunkKey? && Known(docs, k) && docs[k].refs <= refs
  }

  /** While its token is held, a pruner keeps everything that must be kept. */
  ghost predicate Current(time: Time, active: nat, leases: Leases, scores: map<nat, int>, p: Pruner) {
    && p.floor * MILLIS <= Clock(time, Global)
    && (p.phase != ReadActive ==> active in p.keep)
    && (p.phase == ReadGenerations || p.phase == Sweep ==>
          forall id {:trigger Reading(time, leases, id)} :: Reading(time, leases, id) ==> leases[id].gen in p.keep)
    && (p.phase == Sweep ==> forall g {:trigger g in scores} :: g in scores && g in p.listed && g !in p.keep ==> scores[g] < p.floor - RETENTION_SECONDS)
  }

  ghost predicate PrunersOk(docs: Docs, pruners: map<nat, Pruner>) {
    forall t {:trigger t in pruners} :: t in pruners ==> Covers(docs, pruners[t])
  }

  ghost predicate HolderOk(time: Time, nodes: Nodes, active: nat, leases: Leases, scores: map<nat, int>, pruners: map<nat, Pruner>) {
    Locked(time, nodes, Global) ==>
      var t := At(nodes, Global).hold.token;
      t in pruners && Current(time, active, leases, scores, pruners[t])
  }

  /** A shard's maintenance key runs out no later than the global one, except while
      its pruner is about to renew the global key or has given up. */
  ghost predicate ShardHold(time: Time, nodes: Nodes, pruners: map<nat, Pruner>, n: nat) {
    Locked(time, nodes, Shard(n)) ==>
      var h, g := At(nodes, Shard(n)).hold, At(nodes, Global).hold;
      h.token in pruners && h.until <= Clock(time, Shard(n)) + MAINTENANCE_TTL &&
      (pruners[h.token].stopped || n in pruners[h.token].between ||
       (g.Held? && g.token == h.token && h.until - Clock(time, Shard(n)) <= g.until - Clock(time, Global)))
  }

  ghost predicate ShardHolds(time: Time, nodes: Nodes, pruners: map<nat, Pruner>) {
    forall n {:trigger Shard(n)} :: ShardHold(time, nodes, pruners, n)
  }

  /** Tokens come from the global fence, and no shard is ahead of it. */
  ghost predicate Fences(nodes: Nodes, pruners: map<nat, Pruner>, writers: map<nat, Writer>) {
    && (forall ns {:trigger At(nodes, ns)} :: At(nodes, ns).fence <= At(nodes, Global).fence)
    && (forall t {:trigger t in pruners} :: t in pruners ==> t <= At(nodes, Global).fence)
    && (forall id {:trigger id in writers} :: id in writers ==> DeadlinesOk(writers[id], At(nodes, Global).fence))
  }

  ghost predicate DeadlinesOk(w: Writer, fence: nat) {
    forall d :: d in w.deadlines ==> d.fence <= fence
  }

  // ----- serving -----

  ghost predicate InstanceOk(committed: map<nat, nat>, i: Instance) {
    && (i.serving.Gen? ==> i.serving.g in committed)
    && (i.pinned.Gen? ==> i.pinned.g in committed)
    && (i.serving.Gen? && i.pinned.Gen? ==> committed[i.serving.g] <= committed[i.pinned.g])
  }

  ghost predicate InstancesOk(instances: map<nat, Instance>, committed: map<nat, nat>) {
    forall i {:trigger i in instances} :: i in instances ==> InstanceOk(committed, instances[i])
  }

  ghost predicate Inv(s: State) {
    && Contents(s.docs, s.disk.store) && DocsOk(s.docs, s.writers) && Registered(s.disk)
    && Protected(s.time, s.docs, s.disk.store, s.active, s.leases)
    && Exclusive(s.time, s.nodes)
    && WritersOk(s.docs, s.log.committed, s.used, s.writers)
    && StagedKept(s.time, s.nodes, s.disk.store, s.writers)
    && Chain(s.docs, s.active, s.log) && LeasesOk(s.leases, s.log.committed, s.used)
    && PrunersOk(s.docs, s.pruners)
    && HolderOk(s.time, s.nodes, s.active, s.leases, s.disk.scores, s.pruners)
    && ShardHolds(s.time, s.nodes, s.pruners) && Fences(s.nodes, s.pruners, s.writers)
    && InstancesOk(s.instances, s.log.committed)
  }
}
