/** Every action of the versioned store keeps its invariant. */
module VersionedSteps {
  import opened VersionedStore
  import opened VersionedInvariant

  // ----- time -----

  lemma TimePasses(s: State, time: Time)
    requires Inv(s) && time.skew == s.time.skew && time.now >= s.time.now
    ensures Protected(time, s.docs, s.disk.store, s.active, s.leases) && Exclusive(time, s.nodes)
    ensures StagedKept(time, s.nodes, s.disk.store, s.writers)
    ensures HolderOk(time, s.nodes, s.active, s.leases, s.disk.scores, s.pruners)
    ensures ShardHolds(time, s.nodes, s.pruners)
  {
    hide Contents, DocsOk, Registered, WritersOk, Chain, LeasesOk, PrunersOk, Fences, InstancesOk, Intact, Known, At;
    var d := time.now - s.time.now;
    assert forall ns :: Clock(time, ns) == Clock(s.time, ns) + d;
    forall id | Reading(time, s.leases, id) ensures Intact(s.docs, s.disk.store, s.leases[id].gen) {
      assert Reading(s.time, s.leases, id);
    }
    forall id | Writing(time, s.nodes, Global, id) ensures Writing(s.time, s.nodes, Global, id) { }
    forall n ensures ShardHold(time, s.nodes, s.pruners, n) { assert ShardHold(s.time, s.nodes, s.pruners, n); }
    if Locked(time, s.nodes, Global) {
      var p := s.pruners[At(s.nodes, Global).hold.token];
      assert Current(s.time, s.active, s.leases, s.disk.scores, p);
      forall id | Reading(time, s.leases, id) ensures Reading(s.time, s.leases, id) { }
      assert Current(time, s.active, s.leases, s.disk.scores, p);
    }
  }

  lemma TickKeeps(s: State, millis: nat)
    requires Inv(s)
    ensures Inv(s.(time := s.time.(now := s.time.now + millis)))
  {
    hide Contents, DocsOk, Registered, Protected, Exclusive, WritersOk, StagedKept, Chain, LeasesOk, PrunersOk, HolderOk, ShardHolds, Fences, InstancesOk;
    TimePasses(s, s.time.(now := s.time.now + millis));
  }

  // ----- reader leases -----

  /** Every lease valid afterwards was valid before, or pins the active generation
      while no maintenance is under way. */
  lemma LeasesChange(s: State, leases: Leases)
    requires Inv(s)
    requires forall id :: Reading(s.time, leases, id) ==>
               || (Reading(s.time, s.leases, id) && leases[id].gen == s.leases[id].gen)
               || (leases[id].gen == s.active && !Locked(s.time, s.nodes, Global))
    ensures Protected(s.time, s.docs, s.disk.store, s.active, leases)
    ensures HolderOk(s.time, s.nodes, s.active, leases, s.disk.scores, s.pruners)
  {
    hide Contents, DocsOk, Registered, Exclusive, WritersOk, StagedKept, Chain, LeasesOk, PrunersOk, ShardHolds, Fences, InstancesOk, Intact, At;
    if Locked(s.time, s.nodes, Global) {
      var p := s.pruners[At(s.nodes, Global).hold.token];
      assert Current(s.time, s.active, s.leases, s.disk.scores, p);
      assert Current(s.time, s.active, leases, s.disk.scores, p);
    }
  }

  lemma ActiveCommitted(s: State)
    requires Inv(s)
    ensures s.active in s.log.committed && s.log.committed[s.active] == |s.log.commits| + 1
    ensures Known(s.docs, GenKey(s.active)) && Sequence(s.docs, s.active) == |s.log.commits| + 1
    ensures 0 in s.used
  {
    hide Contents, DocsOk, Registered, Protected, Exclusive, StagedKept, LeasesOk, PrunersOk, HolderOk, ShardHolds, Fences, InstancesOk;
    assert Numbered(s.docs, s.log, |s.log.commits|);
  }

  /** Ids are only ever added. */
  lemma MoreUsed(s: State, used: set<nat>)
    requires Inv(s) && s.used <= used
    ensures WritersOk(s.docs, s.log.committed, used, s.writers) && LeasesOk(s.leases, s.log.committed, used)
  {
    hide Contents, DocsOk, Registered, Protected, Exclusive, StagedKept, Chain, PrunersOk, HolderOk, ShardHolds, Fences, InstancesOk, Sourced;
  }

  lemma OpenLeaseKeeps(s: State, id: nat, duration: nat)
    requires Inv(s) && id !in s.used
    ensures Inv(OpenLease(s, id, duration))
  {
    hide Contents, DocsOk, Registered, Protected, Exclusive, WritersOk, StagedKept, Chain, LeasesOk, PrunersOk, HolderOk, ShardHolds, Fences, InstancesOk;
    if !Locked(s.time, s.nodes, Global) {
      var l := Lease(s.active, Clock(s.time, Global) + duration);
      LeasesChange(s, s.leases[id := l]);
      ActiveCommitted(s);
      MoreUsed(s, s.used + {id});
      AddLease(s.leases, s.log.committed, s.used + {id}, id, l);
    }
  }

  lemma AddLease(leases: Leases, committed: map<nat, nat>, used: set<nat>, id: nat, l: Lease)
    requires LeasesOk(leases, committed, used) && id in used && l.gen in committed
    ensures LeasesOk(leases[id := l], committed, used)
  {
  }

  lemma FewerLeases(leases: Leases, more: Leases, committed: map<nat, nat>, used: set<nat>)
    requires LeasesOk(more, committed, used) && forall id :: id in leases ==> id in more && leases[id] == more[id]
    ensures LeasesOk(leases, committed, used)
  {
  }

  lemma RenewLeaseKeeps(s: State, id: nat, duration: nat)
    requires Inv(s)
    ensures Inv(RenewLease(s, id, duration))
  {
    hide Contents, DocsOk, Registered, Protected, Exclusive, WritersOk, StagedKept, Chain, LeasesOk, PrunersOk, HolderOk, ShardHolds, Fences, InstancesOk;
    if Reading(s.time, s.leases, id) {
      var l := s.leases[id].(until := Clock(s.time, Global) + duration);
      LeasesChange(s, s.leases[id := l]);
      LeaseCommitted(s.leases, s.log.committed, s.used, id);
      AddLease(s.leases, s.log.committed, s.used, id, l);
    }
  }

  lemma LeaseCommitted(leases: Leases, committed: map<nat, nat>, used: set<nat>, id: nat)
    requires LeasesOk(leases, committed, used) && id in leases
    ensures leases[id].gen in committed && id in used
  {
  }

  lemma CloseLeaseKeeps(s: State, id: nat)
    requires Inv(s)
    ensures Inv(CloseLease(s, id))
  {
    hide Contents, DocsOk, Registered, Protected, Exclusive, WritersOk, StagedKept, Chain, LeasesOk, PrunersOk, HolderOk, ShardHolds, Fences, InstancesOk;
    LeasesChange(s, s.leases - {id});
    FewerLeases(s.leases - {id}, s.leases, s.log.committed, s.used);
  }

  // ----- nodes -----

  /** Holds and fences are as before. */
  lemma SameLocks(s: State, nodes: Nodes)
    requires Inv(s) && forall ns :: At(nodes, ns).hold == At(s.nodes, ns).hold && At(nodes, ns).fence == At(s.nodes, ns).fence
    ensures HolderOk(s.time, nodes, s.active, s.leases, s.disk.scores, s.pruners)
    ensures ShardHolds(s.time, nodes, s.pruners) && Fences(nodes, s.pruners, s.writers)
  {
    hide Contents, DocsOk, Registered, Protected, Exclusive, WritersOk, StagedKept, Chain, LeasesOk, PrunersOk, InstancesOk, At, Current;
    forall n ensures ShardHold(s.time, nodes, s.pruners, n) { assert ShardHold(s.time, s.nodes, s.pruners, n); }
  }

  /** The global node is as before. */
  lemma SameGlobal(s: State, nodes: Nodes)
    requires Inv(s) && At(nodes, Global) == At(s.nodes, Global)
    ensures Exclusive(s.time, nodes) && StagedKept(s.time, nodes, s.disk.store, s.writers)
    ensures HolderOk(s.time, nodes, s.active, s.leases, s.disk.scores, s.pruners)
  {
    hide Contents, DocsOk, Registered, Protected, WritersOk, Chain, LeasesOk, PrunersOk, ShardHolds, Fences, InstancesOk, At, Current;
    forall id | Writing(s.time, nodes, Global, id) ensures Writing(s.time, s.nodes, Global, id) { }
  }

  /** The writers of the global node change: whoever is valid afterwards was valid
      before or has staged nothing while no maintenance is under way. */
  lemma WritersChange(s: State, nodes: Nodes, writers: map<nat, Writer>)
    requires Inv(s) && At(nodes, Global).hold == At(s.nodes, Global).hold
    requires forall id :: Writing(s.time, nodes, Global, id) ==>
               && id in writers
               && (|| (Writing(s.time, s.nodes, Global, id) && id in s.writers && writers[id].staged == s.writers[id].staged)
                   || (writers[id].staged == {} && !Locked(s.time, s.nodes, Global)))
    ensures Exclusive(s.time, nodes) && StagedKept(s.time, nodes, s.disk.store, writers)
  {
    hide Contents, DocsOk, Registered, Protected, WritersOk, Chain, LeasesOk, PrunersOk, HolderOk, ShardHolds, Fences, InstancesOk, At;
    assert Locked(s.time, nodes, Global) == Locked(s.time, s.nodes, Global);
  }

  lemma WriterOpened(s: State, id: nat)
    requires Inv(s) && Writing(s.time, s.nodes, Global, id)
    ensures id in s.writers
  {
  }

  lemma NewWriter(s: State, id: nat, w: Writer)
    requires Inv(s) && id !in s.used && id != 0 && w.expected == s.active && w.plan.Unplanned? && w.staged == {} && w.deadlines == {} && s.active in s.log.committed
    ensures WritersOk(s.docs, s.log.committed, s.used + {id}, s.writers[id := w]) && id !in s.writers
    ensures DocsOk(s.docs, s.writers[id := w])
    ensures Fences(s.nodes, s.pruners, s.writers[id := w])
  {
    hide Contents, DocsOk, Registered, Protected, Exclusive, StagedKept, Chain, LeasesOk, PrunersOk, HolderOk, ShardHolds, Fences, InstancesOk, Sourced;
    CommittedUsed(s, s.active);
    SamePlans(s.docs, s.writers, s.writers[id := w]);
    NoDeadlines(s.nodes, s.pruners, s.writers, id, w);
  }

  /** Documents stay owned while plans stay. */
  lemma SamePlans(docs: Docs, writers: map<nat, Writer>, after: map<nat, Writer>)
    requires DocsOk(docs, writers) && forall id :: id in writers && writers[id].plan.Change? ==> id in after && after[id].plan.Change?
    ensures DocsOk(docs, after)
  {
    forall k | k in docs ensures DocOk(docs, after, k) { assert DocOk(docs, writers, k); }
  }

  lemma NoDeadlines(nodes: Nodes, pruners: map<nat, Pruner>, writers: map<nat, Writer>, id: nat, w: Writer)
    requires Fences(nodes, pruners, writers) && (w.deadlines == {} || (id in writers && w.deadlines == writers[id].deadlines))
    ensures Fences(nodes, pruners, writers[id := w])
  {
    hide At;
  }

  /** Committed generations belong to opened writers. */
  lemma CommittedUsed(s: State, g: nat)
    requires Inv(s) && g in s.log.committed
    ensures g in s.used
  {
    hide Contents, Registered, Protected, Exclusive, StagedKept, LeasesOk, PrunersOk, HolderOk, ShardHolds, Fences, InstancesOk, Sourced;
    var i :| 0 <= i <= |s.log.commits| && GenAt(s.log.commits, i) == g;
    assert Numbered(s.docs, s.log, i);
    assert DocOk(s.docs, s.writers, GenKey(g));
  }

  lemma OpenWriterKeeps(s: State, id: nat, expected: nat, duration: nat)
    requires Inv(s) && id !in s.used
    ensures Inv(OpenWriter(s, id, expected, duration))
  {
    hide Contents, DocsOk, Registered, Protected, Exclusive, WritersOk, StagedKept, Chain, LeasesOk, PrunersOk, HolderOk, ShardHolds, Fences, InstancesOk;
    if !Locked(s.time, s.nodes, Global) && s.active == expected {
      var s1 := OpenWriter(s, id, expected, duration);
      ActiveCommitted(s);
      NewWriter(s, id, s1.writers[id]);
      MoreUsed(s, s1.used);
      forall x | Writing(s.time, s.nodes, Global, x) ensures x in s.writers { WriterOpened(s, x); }
      WritersChange(s, s1.nodes, s1.writers);
      SameLocks(s, s1.nodes);
      FencesMove(s.nodes, s1.nodes, s.pruners, s1.writers);
    }
  }

  lemma FencesMove(nodes: Nodes, after: Nodes, pruners: map<nat, Pruner>, writers: map<nat, Writer>)
    requires Fences(nodes, pruners, writers) && forall ns :: At(after, ns).fence == At(nodes, ns).fence
    ensures Fences(after, pruners, writers)
  {
    hide At;
  }

  lemma RenewWriterKeeps(s: State, id: nat, duration: nat)
    requires Inv(s)
    ensures Inv(RenewWriter(s, id, duration))
  {
    hide Contents, DocsOk, Registered, Protected, Exclusive, WritersOk, StagedKept, Chain, LeasesOk, PrunersOk, HolderOk, ShardHolds, Fences, InstancesOk;
    if Writing(s.time, s.nodes, Global, id) {
      var s1 := RenewWriter(s, id, duration);
      forall x | Writing(s.time, s.nodes, Global, x) ensures x in s.writers { WriterOpened(s, x); }
      WritersChange(s, s1.nodes, s.writers);
      SameLocks(s, s1.nodes);
    }
  }

  lemma CloseWriterKeeps(s: State, id: nat, ns: Ns)
    requires Inv(s)
    ensures Inv(CloseWriter(s, id, ns))
  {
    hide Contents, DocsOk, Registered, Protected, Exclusive, WritersOk, StagedKept, Chain, LeasesOk, PrunersOk, HolderOk, ShardHolds, Fences, InstancesOk;
    var s1 := CloseWriter(s, id, ns);
    forall x | Writing(s.time, s.nodes, Global, x) ensures x in s.writers { WriterOpened(s, x); }
    WritersChange(s, s1.nodes, s.writers);
    SameLocks(s, s1.nodes);
  }

  // ----- preparing -----

  lemma UpdateWriter(s: State, id: nat, w: Writer)
    requires Inv(s) && id in s.writers && w.expected == s.writers[id].expected && w.plan == s.writers[id].plan && w.deadlines == s.writers[id].deadlines
    requires w.plan.Change? && w.staged <= w.plan.toStage
    ensures WritersOk(s.docs, s.log.committed, s.used, s.writers[id := w]) && DocsOk(s.docs, s.writers[id := w])
    ensures Fences(s.nodes, s.pruners, s.writers[id := w])
  {
    hide Contents, DocsOk, Registered, Protected, Exclusive, StagedKept, Chain, LeasesOk, PrunersOk, HolderOk, ShardHolds, Fences, InstancesOk;
    SamePlans(s.docs, s.writers, s.writers[id := w]);
    NoDeadlines(s.nodes, s.pruners, s.writers, id, w);
    SourcedSame(s.docs, id, s.writers[id], w);
  }

  lemma SourcedSame(docs: Docs, id: nat, w: Writer, v: Writer)
    requires v.expected == w.expected && v.plan == w.plan
    ensures w.plan.Change? && Sourced(docs, id, w) ==> Sourced(docs, id, v)
  {
    hide Known, Reaches;
    if w.plan.Change? && Sourced(docs, id, w) {
      forall m | m in v.plan.toStage && m.ManifestKey? ensures NewManifest(docs, id, v, m) { assert NewManifest(docs, id, w, m); }
    }
  }

  lemma PlanNothingKeeps(s: State, id: nat)
    requires Inv(s) && WriterEnabled(s, id, WNothing)
    ensures Inv(PlanNothing(s, id))
  {
    hide Contents, DocsOk, Registered, Protected, Exclusive, WritersOk, StagedKept, Chain, LeasesOk, PrunersOk, HolderOk, ShardHolds, Fences, InstancesOk;
    var w := s.writers[id].(plan := Unchanged);
    SamePlans(s.docs, s.writers, s.writers[id := w]);
    NoDeadlines(s.nodes, s.pruners, s.writers, id, w);
    Replanned(s, id, w);
  }

  lemma Replanned(s: State, id: nat, w: Writer)
    requires Inv(s) && id in s.writers && s.writers[id].plan.Unplanned? && w == s.writers[id].(plan := Unchanged)
    ensures WritersOk(s.docs, s.log.committed, s.used, s.writers[id := w])
    ensures StagedKept(s.time, s.nodes, s.disk.store, s.writers[id := w])
  {
    hide Contents, DocsOk, Registered, Protected, Exclusive, Chain, LeasesOk, PrunersOk, HolderOk, ShardHolds, Fences, InstancesOk, Sourced, At;
  }

  lemma ReadDeadlineKeeps(s: State, id: nat, shard: nat)
    requires Inv(s) && id in s.writers
    ensures Inv(ReadDeadline(s, id, shard))
  {
    hide Contents, DocsOk, Registered, Protected, Exclusive, WritersOk, StagedKept, Chain, LeasesOk, PrunersOk, HolderOk, ShardHolds, Fences, InstancesOk;
    if !Locked(s.time, s.nodes, Global) && Writing(s.time, s.nodes, Global, id) {
      var n, w := At(s.nodes, Global), s.writers[id];
      var d := Deadline(shard, n.writers[id], n.fence);
      var v := w.(deadlines := w.deadlines + {d});
      SamePlans(s.docs, s.writers, s.writers[id := v]);
      AddDeadline(s, id, d);
    }
  }

  lemma AddDeadline(s: State, id: nat, d: Deadline)
    requires Inv(s) && id in s.writers && d.fence <= At(s.nodes, Global).fence
    ensures var w := s.writers[id].(deadlines := s.writers[id].deadlines + {d});
            && WritersOk(s.docs, s.log.committed, s.used, s.writers[id := w])
            && StagedKept(s.time, s.nodes, s.disk.store, s.writers[id := w])
            && Fences(s.nodes, s.pruners, s.writers[id := w])
  {
    hide Contents, DocsOk, Registered, Protected, Exclusive, Chain, LeasesOk, PrunersOk, HolderOk, ShardHolds, InstancesOk, At, Sourced;
    var w := s.writers[id].(deadlines := s.writers[id].deadlines + {d});
    SourcedSame(s.docs, id, s.writers[id], w);
    assert DeadlinesOk(s.writers[id], At(s.nodes, Global).fence);
  }

  lemma MirrorKeeps(s: State, id: nat, d: Deadline)
    requires Inv(s) && WriterEnabled(s, id, WMirror(d))
    ensures Inv(Mirror(s, id, d))
  {
    hide Contents, DocsOk, Registered, Protected, Exclusive, WritersOk, StagedKept, Chain, LeasesOk, PrunersOk, HolderOk, ShardHolds, Fences, InstancesOk;
    var s1 := Mirror(s, id, d);
    if s1 != s {
      SameGlobal(s, s1.nodes);
      ShardFence(s, id, d, s1.nodes);
    }
  }

  lemma ShardFence(s: State, id: nat, d: Deadline, nodes: Nodes)
    requires Inv(s) && WriterEnabled(s, id, WMirror(d))
    requires At(nodes, Shard(d.shard)).hold == At(s.nodes, Shard(d.shard)).hold && At(nodes, Shard(d.shard)).fence == d.fence
    requires forall ns :: ns != Shard(d.shard) ==> At(nodes, ns) == At(s.nodes, ns)
    ensures Fences(nodes, s.pruners, s.writers) && ShardHolds(s.time, nodes, s.pruners)
  {
    hide Contents, DocsOk, Registered, Protected, Exclusive, WritersOk, StagedKept, Chain, LeasesOk, PrunersOk, HolderOk, InstancesOk, At;
    assert DeadlinesOk(s.writers[id], At(s.nodes, Global).fence);
    forall n ensures ShardHold(s.time, nodes, s.pruners, n) { assert ShardHold(s.time, s.nodes, s.pruners, n); }
  }

  // ----- planning -----

  /** New documents leave existing generations as they were. */
  lemma IntactMore(docs: Docs, more: Docs, store: map<Key, Doc>, g: nat)
    requires Intact(docs, store, g) && forall k :: k in more ==> k !in docs
    ensures Intact(docs + more, store, g)
  {
    forall m | m in docs[GenKey(g)].refs && m.ManifestKey? ensures Known(docs + more, m) && RefsStored(docs + more, store, m) {
      assert RefsStored(docs, store, m);
    }
  }

  lemma ReachesMore(docs: Docs, more: Docs, g: nat, k: Key)
    requires Reaches(docs, g, k) && forall k :: k in more ==> k !in docs
    ensures Reaches(docs + more, g, k)
  {
    if m :| ViaManifest(docs, g, m, k) { assert ViaManifest(docs + more, g, m, k); }
  }

  lemma SourcedMore(docs: Docs, more: Docs, id: nat, w: Writer)
    requires w.plan.Change? && Sourced(docs, id, w) && forall k :: k in more ==> k !in docs
    ensures Sourced(docs + more, id, w)
  {
    forall m | m in w.plan.toStage && m.ManifestKey? ensures NewManifest(docs + more, id, w, m) {
      assert NewManifest(docs, id, w, m);
      forall r | r in docs[m].refs ensures r in w.plan.toStage || Reaches(docs + more, w.expected, r) {
        if r !in w.plan.toStage { ReachesMore(docs, more, w.expected, r); }
      }
    }
  }

  /** The documents of an unplanned writer do not exist yet. */
  lemma PlanIsNew(s: State, id: nat, more: Docs, toStage: set<Key>, k: Key)
    requires Inv(s) && id in s.writers && s.writers[id].plan.Unplanned?
    requires PlanOk(s.docs, id, s.writers[id].expected, more, toStage) && k in more
    ensures k !in s.docs
  {
    hide Contents, Registered, Protected, Exclusive, StagedKept, Chain, LeasesOk, PrunersOk, HolderOk, ShardHolds, Fences, InstancesOk, Sourced;
    assert NewDoc(s.docs, id, s.writers[id].expected, more, toStage, k);
    assert WriterOk(s.docs, s.log.committed, s.used, id, s.writers[id]);
    assert k in s.docs ==> DocOk(s.docs, s.writers, k);
  }

  lemma PlannedSourced(docs: Docs, id: nat, w: Writer, more: Docs)
    requires w.plan.Change? && PlanOk(docs, id, w.expected, more, w.plan.toStage) && forall k :: k in more ==> k !in docs
    ensures Sourced(docs + more, id, w)
  {
    hide Reaches;
    var all := docs + more;
    assert NewDoc(docs, id, w.expected, more, w.plan.toStage, GenKey(id));
    forall m | m in w.plan.toStage && m.ManifestKey? ensures NewManifest(all, id, w, m) {
      assert NewDoc(docs, id, w.expected, more, w.plan.toStage, m);
      forall r | r in all[m].refs ensures r in w.plan.toStage || Reaches(all, w.expected, r) {
        if r !in w.plan.toStage { ReachesMore(docs, more, w.expected, r); }
      }
    }
  }

  lemma PlannedDocs(docs: Docs, writers: map<nat, Writer>, id: nat, w: Writer, more: Docs)
    requires DocsOk(docs, writers) && w.plan.Change? && PlanOk(docs, id, w.expected, more, w.plan.toStage)
    requires forall k :: k in more ==> k !in docs
    ensures DocsOk(docs + more, writers[id := w])
  {
    hide Reaches;
    var all := docs + more;
    forall k | k in all ensures DocOk(all, writers[id := w], k) {
      if k in more {
        assert NewDoc(docs, id, w.expected, more, w.plan.toStage, k);
        assert DocOk(docs, writers, GenKey(w.expected));
      } else {
        assert DocOk(docs, writers, k);
      }
    }
  }

  lemma PlannedWriters(s: State, id: nat, w: Writer, more: Docs)
    requires Inv(s) && id in s.writers && s.writers[id].plan.Unplanned? && w == s.writers[id].(plan := w.plan, staged := w.staged) && w.plan.Change?
    requires w.plan.result.previous == w.expected && w.plan.result.version == id && w.staged <= w.plan.toStage
    requires PlanOk(s.docs, id, w.expected, more, w.plan.toStage) && forall k :: k in more ==> k !in s.docs
    ensures WritersOk(s.docs + more, s.log.committed, s.used, s.writers[id := w])
  {
    hide Contents, DocsOk, Registered, Protected, Exclusive, StagedKept, Chain, LeasesOk, PrunersOk, HolderOk, ShardHolds, Fences, InstancesOk, Sourced, PlanOk;
    PlannedSourced(s.docs, id, w, more);
    forall x | x in s.writers && s.writers[x].plan.Change? ensures Sourced(s.docs + more, x, s.writers[x]) {
      assert WriterOk(s.docs, s.log.committed, s.used, x, s.writers[x]);
      SourcedMore(s.docs, more, x, s.writers[x]);
    }
  }

  lemma PlannedRest(s: State, more: Docs)
    requires Inv(s) && forall k :: k in more ==> k !in s.docs
    ensures Contents(s.docs + more, s.disk.store)
    ensures Protected(s.time, s.docs + more, s.disk.store, s.active, s.leases)
    ensures PrunersOk(s.docs + more, s.pruners)
  {
    hide DocsOk, Registered, Exclusive, WritersOk, StagedKept, Chain, LeasesOk, HolderOk, ShardHolds, Fences, InstancesOk, Intact;
    IntactMore(s.docs, more, s.disk.store, s.active);
    forall id | Reading(s.time, s.leases, id) ensures Intact(s.docs + more, s.disk.store, s.leases[id].gen) {
      IntactMore(s.docs, more, s.disk.store, s.leases[id].gen);
    }
    forall t | t in s.pruners ensures Covers(s.docs + more, s.pruners[t]) { CoversMore(s.docs, more, s.pruners[t]); }
  }

  lemma CoversMore(docs: Docs, more: Docs, p: Pruner)
    requires Covers(docs, p) && forall k :: k in more ==> k !in docs
    ensures Covers(docs + more, p)
  {
    assert forall k :: ReadIn(docs, p.refs, k) ==> ReadIn(docs + more, p.refs, k);
  }

  lemma ChainMore(docs: Docs, more: Docs, active: nat, log: Log)
    requires Chain(docs, active, log) && forall k :: k in more ==> k !in docs
    ensures Chain(docs + more, active, log)
  {
    forall i | 0 <= i <= |log.commits| ensures Numbered(docs + more, log, i) { assert Numbered(docs, log, i); }
  }

  lemma NothingStaged(s: State, id: nat)
    requires Inv(s) && id in s.writers && s.writers[id].plan.Unplanned?
    ensures s.writers[id].staged == {}
  {
    hide Contents, DocsOk, Registered, Protected, Exclusive, StagedKept, Chain, LeasesOk, PrunersOk, HolderOk, ShardHolds, Fences, InstancesOk;
    assert WriterOk(s.docs, s.log.committed, s.used, id, s.writers[id]);
  }

  lemma StagedSame(s: State, id: nat, w: Writer)
    requires Inv(s) && id in s.writers && w.staged == s.writers[id].staged
    ensures StagedKept(s.time, s.nodes, s.disk.store, s.writers[id := w])
  {
    hide Contents, DocsOk, Registered, Protected, Exclusive, WritersOk, Chain, LeasesOk, PrunersOk, HolderOk, ShardHolds, Fences, InstancesOk, At;
  }

  lemma PlanChangeKeeps(s: State, id: nat, more: Docs, toStage: set<Key>, result: Receipt)
    requires Inv(s) && WriterEnabled(s, id, WChange(more, toStage, result))
    ensures Inv(PlanChange(s, id, more, toStage, result))
  {
    hide Contents, DocsOk, Registered, Protected, Exclusive, WritersOk, StagedKept, Chain, LeasesOk, PrunersOk, HolderOk, ShardHolds, Fences, InstancesOk, PlanOk;
    var w := s.writers[id].(plan := Change(toStage, result));
    forall k | k in more ensures k !in s.docs { PlanIsNew(s, id, more, toStage, k); }
    NothingStaged(s, id);
    PlannedWriters(s, id, w, more);
    PlannedDocs(s.docs, s.writers, id, w, more);
    PlannedRest(s, more);
    ChainMore(s.docs, more, s.active, s.log);
    NoDeadlines(s.nodes, s.pruners, s.writers, id, w);
    StagedSame(s, id, w);
  }

  // ----- staging -----

  lemma IntactGrows(docs: Docs, store: map<Key, Doc>, more: map<Key, Doc>, g: nat)
    requires Intact(docs, store, g) && forall k :: k in store ==> k in more
    ensures Intact(docs, more, g)
  {
    forall m | m in docs[GenKey(g)].refs && m.ManifestKey? ensures RefsStored(docs, more, m) { assert RefsStored(docs, store, m); }
  }

  lemma PlannedKey(s: State, id: nat, k: Key)
    requires Inv(s) && WriterEnabled(s, id, WStage(k))
    ensures Known(s.docs, k)
  {
    hide Contents, DocsOk, Registered, Protected, Exclusive, StagedKept, Chain, LeasesOk, PrunersOk, HolderOk, ShardHolds, Fences, InstancesOk;
    assert WriterOk(s.docs, s.log.committed, s.used, id, s.writers[id]);
  }

  lemma PutRecord(docs: Docs, disk: Disk, k: Key, seconds: int)
    requires Contents(docs, disk.store) && Registered(disk) && Known(docs, k)
    ensures var after := Put(disk, k, Content(docs, k), seconds);
            Contents(docs, after.store) && Registered(after) && (forall x :: x in after.store <==> x in disk.store || x == k)
  {
    hide Known;
  }

  lemma StagedRecord(s: State, id: nat, k: Key)
    requires Inv(s) && WriterEnabled(s, id, WStage(k)) && StageReplyOf(s, id, k) == Staged && Known(s.docs, k)
    ensures var s1 := Stage(s, id, k);
            && Contents(s.docs, s1.disk.store) && Registered(s1.disk)
            && Protected(s.time, s.docs, s1.disk.store, s.active, s.leases)
            && StagedKept(s.time, s.nodes, s1.disk.store, s1.writers)
  {
    hide DocsOk, Exclusive, WritersOk, Chain, LeasesOk, PrunersOk, HolderOk, ShardHolds, Fences, InstancesOk, Intact, At, Known, Contents, Registered, Put;
    var s1 := Stage(s, id, k);
    PutRecord(s.docs, s.disk, k, Clock(s.time, NsOf(k)) / MILLIS);
    IntactGrows(s.docs, s.disk.store, s1.disk.store, s.active);
    forall x | Reading(s.time, s.leases, x) ensures Intact(s.docs, s1.disk.store, s.leases[x].gen) {
      IntactGrows(s.docs, s.disk.store, s1.disk.store, s.leases[x].gen);
    }
  }

  lemma StagedScores(s: State, id: nat, k: Key)
    requires Inv(s) && WriterEnabled(s, id, WStage(k)) && StageReplyOf(s, id, k) == Staged
    ensures HolderOk(s.time, s.nodes, s.active, s.leases, Stage(s, id, k).disk.scores, s.pruners)
  {
    hide Contents, DocsOk, Registered, Protected, Exclusive, WritersOk, StagedKept, Chain, LeasesOk, PrunersOk, ShardHolds, Fences, InstancesOk, At;
  }

  lemma StageKeeps(s: State, id: nat, k: Key)
    requires Inv(s) && WriterEnabled(s, id, WStage(k))
    ensures Inv(Stage(s, id, k))
  {
    hide Contents, DocsOk, Registered, Protected, Exclusive, WritersOk, StagedKept, Chain, LeasesOk, PrunersOk, HolderOk, ShardHolds, Fences, InstancesOk;
    if StageReplyOf(s, id, k) == Staged {
      var w := s.writers[id].(staged := s.writers[id].staged + {k});
      PlannedKey(s, id, k);
      StagedSubset(s, id);
      StagedRecord(s, id, k);
      StagedScores(s, id, k);
      UpdateWriter(s, id, w);
    }
  }

  lemma StagedSubset(s: State, id: nat)
    requires Inv(s) && id in s.writers && s.writers[id].plan.Change?
    ensures s.writers[id].staged <= s.writers[id].plan.toStage
  {
    hide Contents, DocsOk, Registered, Protected, Exclusive, StagedKept, Chain, LeasesOk, PrunersOk, HolderOk, ShardHolds, Fences, InstancesOk;
    assert WriterOk(s.docs, s.log.committed, s.used, id, s.writers[id]);
  }

  // ----- committing -----

  /** A generation is intact once its prepared records and its predecessor's are. */
  lemma SourcedIntact(docs: Docs, writers: map<nat, Writer>, store: map<Key, Doc>, id: nat, w: Writer)
    requires w.plan.Change? && Sourced(docs, id, w) && Intact(docs, store, w.expected) && DocsOk(docs, writers)
    requires forall k :: k in w.plan.toStage ==> k in store
    ensures Intact(docs, store, id)
  {
    hide Reaches;
    forall m | m in docs[GenKey(id)].refs && m.ManifestKey? ensures Known(docs, m) && RefsStored(docs, store, m) {
      assert DocOk(docs, writers, GenKey(id));
      assert DocOk(docs, writers, m);
      if m in w.plan.toStage {
        assert NewManifest(docs, id, w, m);
        forall r | r in docs[m].refs ensures r in store {
          if r !in w.plan.toStage { ReachedStored(docs, store, w.expected, r); }
        }
      }
    }
  }

  lemma ReachedStored(docs: Docs, store: map<Key, Doc>, g: nat, r: Key)
    requires Intact(docs, store, g) && Reaches(docs, g, r)
    ensures r in store
  {
    if m :| ViaManifest(docs, g, m, r) { assert RefsStored(docs, store, m); }
  }

  /** An unexpired writer that staged its whole plan commits an intact generation. */
  lemma TargetIntact(s: State, id: nat)
    requires Inv(s) && WriterEnabled(s, id, WCommit) && Writing(s.time, s.nodes, Global, id) && s.active == s.writers[id].expected
    ensures Intact(s.docs, s.disk.store, Target(s, id))
  {
    hide Contents, Registered, Exclusive, Chain, LeasesOk, PrunersOk, HolderOk, ShardHolds, Fences, InstancesOk, Intact, DocsOk, Sourced, At;
    assert WriterOk(s.docs, s.log.committed, s.used, id, s.writers[id]);
    if s.writers[id].plan.Change? { SourcedIntact(s.docs, s.writers, s.disk.store, id, s.writers[id]); }
  }

  lemma ChainReceipt(docs: Docs, active: nat, log: Log, op: nat, r: Receipt)
    requires Chain(docs, active, log) && op !in log.receipts && op != 0
    ensures Chain(docs, active, log.(receipts := log.receipts[op := r]))
  {
    hide InChain, Known;
    var after := log.(receipts := log.receipts[op := r]);
    forall i | 0 <= i <= |log.commits| ensures Numbered(docs, after, i) { assert Numbered(docs, log, i); }
    forall i | 0 <= i < |log.commits| ensures Recorded(after, i) { assert Recorded(log, i); }
  }

  /** Every committed generation has its operation's receipt. */
  lemma HasReceipt(docs: Docs, active: nat, log: Log, g: nat)
    requires Chain(docs, active, log) && g in log.committed && g != 0
    ensures g in log.receipts
  {
    assert InChain(log.commits, g);
    var i :| 0 <= i <= |log.commits| && GenAt(log.commits, i) == g;
    assert Recorded(log, i - 1);
  }

  lemma ChainGrows(docs: Docs, log: Log, g: nat, expected: nat)
    requires Chain(docs, expected, log) && g != 0 && g !in log.committed
    requires g in log.receipts && log.receipts[g].previous == expected && log.receipts[g].version == g
    requires Known(docs, GenKey(g)) && Sequence(docs, g) == Sequence(docs, expected) + 1
    ensures var after := log.(committed := log.committed[g := Sequence(docs, g)], commits := log.commits + [Commit(expected, g)]);
            Chain(docs, g, after)
  {
    hide InChain, Known;
    var n := |log.commits|;
    var after := log.(committed := log.committed[g := Sequence(docs, g)], commits := log.commits + [Commit(expected, g)]);
    assert Numbered(docs, log, n);
    forall i | 0 <= i <= n + 1 ensures Numbered(docs, after, i) { if i <= n { assert Numbered(docs, log, i); } }
    forall i | 0 <= i < n + 1 ensures Recorded(after, i) { if i < n { assert Recorded(log, i); } }
    forall x | x in after.committed ensures InChain(after.commits, x) { InChainGrows(log.commits, Commit(expected, g), x); }
  }

  lemma InChainGrows(commits: seq<Commit>, c: Commit, x: nat)
    ensures InChain(commits, x) || x == c.version ==> InChain(commits + [c], x)
  {
    var all := commits + [c];
    if i :| 0 <= i <= |commits| && GenAt(commits, i) == x { assert GenAt(all, i) == x; }
    assert GenAt(all, |all|) == c.version;
  }

  /** A new committed generation disturbs no one. */
  lemma CommittedGrows(s: State, g: nat, n: nat)
    requires Inv(s) && g !in s.log.committed
    ensures WritersOk(s.docs, s.log.committed[g := n], s.used, s.writers)
    ensures LeasesOk(s.leases, s.log.committed[g := n], s.used) && InstancesOk(s.instances, s.log.committed[g := n])
  {
    hide Contents, DocsOk, Registered, Protected, Exclusive, StagedKept, Chain, PrunersOk, HolderOk, ShardHolds, Fences, Sourced;
    forall i | i in s.instances ensures InstanceOk(s.log.committed[g := n], s.instances[i]) {
      assert InstanceOk(s.log.committed, s.instances[i]);
    }
  }

  lemma CommitScores(s: State, g: nat, seconds: int)
    requires Inv(s) && !Locked(s.time, s.nodes, Global) && Intact(s.docs, s.disk.store, g)
    ensures Registered(s.disk.(scores := s.disk.scores[g := seconds]))
    ensures HolderOk(s.time, s.nodes, g, s.leases, s.disk.scores[g := seconds], s.pruners)
    ensures Protected(s.time, s.docs, s.disk.store, g, s.leases)
  {
    hide Contents, DocsOk, Exclusive, WritersOk, StagedKept, Chain, LeasesOk, PrunersOk, ShardHolds, Fences, InstancesOk, RefsStored;
  }

  lemma WriterFacts(s: State, id: nat)
    requires Inv(s) && id in s.writers
    ensures id != 0 && s.writers[id].expected in s.log.committed && s.writers[id].expected != id
    ensures s.writers[id].plan.Change? ==>
              && Known(s.docs, GenKey(id)) && Sequence(s.docs, id) == Sequence(s.docs, s.writers[id].expected) + 1
              && s.writers[id].plan.result.previous == s.writers[id].expected && s.writers[id].plan.result.version == id
  {
    hide Contents, DocsOk, Registered, Protected, Exclusive, StagedKept, Chain, LeasesOk, PrunersOk, HolderOk, ShardHolds, Fences, InstancesOk;
    assert WriterOk(s.docs, s.log.committed, s.used, id, s.writers[id]);
  }

  lemma CommitKeeps(s: State, id: nat)
    requires Inv(s) && WriterEnabled(s, id, WCommit)
    ensures Inv(CommitWrite(s, id))
  {
    hide Contents, DocsOk, Registered, Protected, Exclusive, WritersOk, StagedKept, Chain, LeasesOk, PrunersOk, HolderOk, ShardHolds, Fences, InstancesOk, Intact, Sequence;
    if id !in s.log.receipts && Decide(s, id).Done? {
      var w, g := s.writers[id], Target(s, id);
      WriterFacts(s, id);
      if id in s.log.committed { HasReceipt(s.docs, s.active, s.log, id); }
      ChainReceipt(s.docs, s.active, s.log, id, ResultOf(w));
      if g != w.expected {
        TargetIntact(s, id);
        ChainGrows(s.docs, s.log.(receipts := s.log.receipts[id := ResultOf(w)]), id, w.expected);
        CommittedGrows(s, id, Sequence(s.docs, id));
        CommitScores(s, id, Clock(s.time, Global) / MILLIS);
      }
    }
  }

  // ----- starting maintenance -----

  lemma CleanedLeases(s: State)
    requires Inv(s)
    ensures Inv(s.(leases := LiveLeases(s)))
  {
    hide Contents, DocsOk, Registered, Protected, Exclusive, WritersOk, StagedKept, Chain, LeasesOk, PrunersOk, HolderOk, ShardHolds, Fences, InstancesOk;
    LeasesChange(s, LiveLeases(s));
    FewerLeases(LiveLeases(s), s.leases, s.log.committed, s.used);
  }

  lemma CleanedWriters(s: State)
    requires Inv(s)
    ensures var n := At(s.nodes, Global);
            Inv(SetNode(s, Global, n.(writers := Unexpired(n.writers, Clock(s.time, Global)))))
  {
    hide Contents, DocsOk, Registered, Protected, Exclusive, WritersOk, StagedKept, Chain, LeasesOk, PrunersOk, HolderOk, ShardHolds, Fences, InstancesOk;
    var n := At(s.nodes, Global);
    var s1 := SetNode(s, Global, n.(writers := Unexpired(n.writers, Clock(s.time, Global))));
    forall x | Writing(s.time, s.nodes, Global, x) ensures x in s.writers { WriterOpened(s, x); }
    WritersChange(s, s1.nodes, s.writers);
    SameLocks(s, s1.nodes);
  }

  /** The nodes and pruners after a token was granted. */
  ghost predicate TokenGranted(s: State, nodes: Nodes, pruners: map<nat, Pruner>, p: Pruner) {
    var n, token := At(s.nodes, Global), At(s.nodes, Global).fence + 1;
    && !Locked(s.time, s.nodes, Global) && !AnyWriting(s.time, s.nodes, Global)
    && (forall ns :: ns != Global ==> At(nodes, ns) == At(s.nodes, ns))
    && At(nodes, Global) == Node(Held(token, Clock(s.time, Global) + MAINTENANCE_TTL), token, n.writers)
    && pruners == s.pruners[token := p]
  }

  /** A fresh token: the previous holder, and with it every confirmed shard grant,
      has run out. */
  lemma NewToken(s: State, nodes: Nodes, pruners: map<nat, Pruner>, p: Pruner)
    requires Inv(s) && TokenGranted(s, nodes, pruners, p)
    requires Covers(s.docs, p) && Current(s.time, s.active, s.leases, s.disk.scores, p)
    ensures Exclusive(s.time, nodes) && StagedKept(s.time, nodes, s.disk.store, s.writers)
    ensures PrunersOk(s.docs, pruners) && HolderOk(s.time, nodes, s.active, s.leases, s.disk.scores, pruners)
    ensures ShardHolds(s.time, nodes, pruners) && Fences(nodes, pruners, s.writers)
  {
    hide Contents, DocsOk, Registered, Protected, WritersOk, Chain, LeasesOk, InstancesOk, Covers, Current, ShardHolds, Fences, At;
    forall id ensures !Writing(s.time, nodes, Global, id) { assert !Writing(s.time, s.nodes, Global, id); }
    NewTokenShards(s, nodes, pruners, p);
    NewTokenFences(s, nodes, pruners, p);
  }

  lemma NewTokenShards(s: State, nodes: Nodes, pruners: map<nat, Pruner>, p: Pruner)
    requires Inv(s) && TokenGranted(s, nodes, pruners, p)
    ensures ShardHolds(s.time, nodes, pruners)
  {
    hide Contents, DocsOk, Registered, Protected, Exclusive, WritersOk, StagedKept, Chain, LeasesOk, PrunersOk, HolderOk, InstancesOk, At;
    forall n ensures ShardHold(s.time, nodes, pruners, n) { assert ShardHold(s.time, s.nodes, s.pruners, n); }
  }

  lemma NewTokenFences(s: State, nodes: Nodes, pruners: map<nat, Pruner>, p: Pruner)
    requires Inv(s) && TokenGranted(s, nodes, pruners, p)
    ensures Fences(nodes, pruners, s.writers)
  {
    hide Contents, DocsOk, Registered, Protected, Exclusive, WritersOk, StagedKept, Chain, LeasesOk, PrunersOk, HolderOk, ShardHolds, InstancesOk, At;
    forall id | id in s.writers ensures DeadlinesOk(s.writers[id], At(nodes, Global).fence) {
      assert DeadlinesOk(s.writers[id], At(s.nodes, Global).fence);
    }
  }

  lemma MaintainKeeps(s: State)
    requires Inv(s)
    ensures Inv(Maintain(s))
  {
    hide Inv, At, Locked, AnyWriting;
    CleanedLeases(s);
    var s1 := s.(leases := LiveLeases(s));
    CleanedWriters(s1);
    var n := At(s.nodes, Global);
    var s2 := SetNode(s1, Global, n.(writers := Unexpired(n.writers, Clock(s.time, Global))));
    if !MaintainRefused(s) { MaintainGranted(s, s2); }
  }

  lemma MaintainGranted(s: State, s2: State)
    requires !MaintainRefused(s) && Inv(s2)
    requires var n := At(s.nodes, Global);
             s2 == SetNode(s.(leases := LiveLeases(s)), Global, n.(writers := Unexpired(n.writers, Clock(s.time, Global))))
    ensures Inv(Maintain(s))
  {
    hide Contents, DocsOk, Registered, Protected, Exclusive, WritersOk, StagedKept, Chain, LeasesOk, PrunersOk, HolderOk, ShardHolds, Fences, InstancesOk;
    hide LiveLeases, Unexpired;
    var s3 := Maintain(s);
    var token := At(s.nodes, Global).fence + 1;
    NobodyWriting(s, s2);
    NewToken(s2, s3.nodes, s3.pruners, s3.pruners[token]);
  }

  lemma NobodyWriting(s: State, s2: State)
    requires !AnyWriting(s.time, s.nodes, Global) && s2.time == s.time
    requires At(s2.nodes, Global).writers == Unexpired(At(s.nodes, Global).writers, Clock(s.time, Global))
    ensures !AnyWriting(s2.time, s2.nodes, Global)
  {
    forall id ensures !Writing(s2.time, s2.nodes, Global, id) { assert !Writing(s.time, s.nodes, Global, id); }
  }

  // ----- pruners -----

  /** A pruner learns something: it stays stopped if it was, and keeps its shard. */
  lemma PrunerChange(s: State, t: nat, p: Pruner)
    requires Inv(s) && t in s.pruners && Covers(s.docs, p)
    requires (s.pruners[t].stopped ==> p.stopped) && s.pruners[t].between <= p.between
    requires HeldBy(s.time, s.nodes, Global, t) ==> Current(s.time, s.active, s.leases, s.disk.scores, p)
    ensures Inv(SetPruner(s, t, p))
  {
    hide Contents, DocsOk, Registered, Protected, Exclusive, WritersOk, StagedKept, Chain, LeasesOk, Fences, InstancesOk, Covers, Current, At;
    var pruners := s.pruners[t := p];
    forall n ensures ShardHold(s.time, s.nodes, pruners, n) { assert ShardHold(s.time, s.nodes, s.pruners, n); }
    SamePruners(s.nodes, s.pruners, pruners, s.writers);
  }

  lemma SamePruners(nodes: Nodes, pruners: map<nat, Pruner>, after: map<nat, Pruner>, writers: map<nat, Writer>)
    requires Fences(nodes, pruners, writers) && forall t :: t in after ==> t in pruners
    ensures Fences(nodes, after, writers)
  {
    hide At;
  }

  lemma PrunerFacts(s: State, t: nat)
    requires Inv(s) && t in s.pruners
    ensures Covers(s.docs, s.pruners[t]) && t <= At(s.nodes, Global).fence
    ensures HeldBy(s.time, s.nodes, Global, t) ==> Current(s.time, s.active, s.leases, s.disk.scores, s.pruners[t])
  {
    hide Contents, DocsOk, Registered, Protected, Exclusive, WritersOk, StagedKept, Chain, LeasesOk, ShardHolds, InstancesOk, Covers, Current, At;
  }

  lemma KeepActiveKeeps(s: State, t: nat)
    requires Inv(s) && Running(s, t) && s.pruners[t].phase == ReadActive
    ensures Inv(KeepActive(s, t))
  {
    hide Inv, HeldBy;
    PrunerFacts(s, t);
    PrunerChange(s, t, s.pruners[t].(phase := ReadLeases, keep := {s.active}));
  }

  lemma KeepLeasedKeeps(s: State, t: nat)
    requires Inv(s) && Running(s, t) && s.pruners[t].phase == ReadLeases
    ensures Inv(KeepLeased(s, t))
  {
    hide Inv, HeldBy;
    PrunerFacts(s, t);
    PrunerChange(s, t, KeepLeased(s, t).pruners[t]);
  }

  lemma KeepRecentKeeps(s: State, t: nat)
    requires Inv(s) && Running(s, t) && s.pruners[t].phase == ReadGenerations
    ensures Inv(KeepRecent(s, t))
  {
    hide Inv, HeldBy;
    PrunerFacts(s, t);
    PrunerChange(s, t, KeepRecent(s, t).pruners[t]);
  }

  lemma StopKeeps(s: State, t: nat)
    requires Inv(s) && t in s.pruners
    ensures Inv(Stop(s, t))
  {
    hide Inv, HeldBy;
    PrunerFacts(s, t);
    PrunerChange(s, t, s.pruners[t].(stopped := true));
  }

  lemma ReadManifestKeeps(s: State, t: nat, k: Key)
    requires Inv(s) && Running(s, t) && k in s.pruners[t].toRead
    ensures Inv(ReadManifest(s, t, k))
  {
    hide Inv, HeldBy, Covers;
    if k !in s.disk.store || s.disk.store[k].ChunkDoc? {
      StopKeeps(s, t);
    } else {
      PrunerFacts(s, t);
      StoredContent(s, k);
      ReadCovers(s.docs, s.pruners[t], k, ReadManifest(s, t, k).pruners[t]);
      PrunerChange(s, t, ReadManifest(s, t, k).pruners[t]);
    }
  }

  lemma StoredContent(s: State, k: Key)
    requires Inv(s) && k in s.disk.store
    ensures Known(s.docs, k) && s.disk.store[k] == Content(s.docs, k)
    ensures !k.ChunkKey? ==> forall r :: r in s.docs[k].refs ==> !r.GenKey?
  {
    hide Registered, Protected, Exclusive, WritersOk, StagedKept, Chain, LeasesOk, PrunersOk, HolderOk, ShardHolds, Fences, InstancesOk;
  }

  lemma ReadCovers(docs: Docs, p: Pruner, k: Key, q: Pruner)
    requires Covers(docs, p) && k in p.toRead && !k.ChunkKey? && Known(docs, k) && forall r :: r in docs[k].refs ==> !r.GenKey?
    requires q == p.(refs := p.refs + docs[k].refs, toRead := p.toRead - {k} + set r | r in docs[k].refs && r.ManifestKey?)
    ensures Covers(docs, q)
  {
    hide Known;
    assert forall x :: ReadIn(docs, p.refs, x) ==> ReadIn(docs, q.refs, x);
    assert ReadIn(docs, q.refs, k);
  }

  lemma ListDeadKeeps(s: State, t: nat, ns: Ns)
    requires Inv(s) && Sweeping(s, t)
    ensures Inv(ListDead(s, t, ns))
  {
    hide Inv, HeldBy, ReadIn;
    PrunerFacts(s, t);
    RegistryKinds(s);
    PrunerChange(s, t, ListDead(s, t, ns).pruners[t]);
  }

  lemma RegistryKinds(s: State)
    requires Inv(s)
    ensures forall k :: k in s.disk.registry ==> !k.GenKey?
  {
    hide Contents, DocsOk, Protected, Exclusive, WritersOk, StagedKept, Chain, LeasesOk, PrunersOk, HolderOk, ShardHolds, Fences, InstancesOk;
  }

  lemma HolderKnown(s: State)
    requires Inv(s) && Locked(s.time, s.nodes, Global)
    ensures At(s.nodes, Global).hold.token in s.pruners
    ensures Current(s.time, s.active, s.leases, s.disk.scores, s.pruners[At(s.nodes, Global).hold.token])
  {
    hide Contents, DocsOk, Registered, Protected, Exclusive, WritersOk, StagedKept, Chain, LeasesOk, PrunersOk, ShardHolds, Fences, InstancesOk, At, Current;
  }

  /** The global token is renewed: no shard's key runs out later. */
  lemma Renewed(s: State, nodes: Nodes, t: nat)
    requires Inv(s) && t in s.pruners && HeldBy(s.time, s.nodes, Global, t)
    requires forall ns :: ns != Global ==> At(nodes, ns) == At(s.nodes, ns)
    requires At(nodes, Global) == At(s.nodes, Global).(hold := Held(t, Clock(s.time, Global) + MAINTENANCE_TTL))
    ensures Exclusive(s.time, nodes) && StagedKept(s.time, nodes, s.disk.store, s.writers)
    ensures HolderOk(s.time, nodes, s.active, s.leases, s.disk.scores, s.pruners)
    ensures ShardHolds(s.time, nodes, s.pruners) && Fences(nodes, s.pruners, s.writers)
    ensures forall n :: Locked(s.time, nodes, Shard(n)) && At(nodes, Shard(n)).hold.token == t ==>
              At(nodes, Shard(n)).hold.until - Clock(s.time, Shard(n)) <= At(nodes, Global).hold.until - Clock(s.time, Global)
  {
    hide Contents, DocsOk, Registered, Protected, WritersOk, Chain, LeasesOk, PrunersOk, InstancesOk, At, Current;
    HolderKnown(s);
    forall id ensures !Writing(s.time, nodes, Global, id) { assert !Writing(s.time, s.nodes, Global, id); }
    forall n ensures ShardHold(s.time, nodes, s.pruners, n) { assert ShardHold(s.time, s.nodes, s.pruners, n); }
    forall n | Locked(s.time, nodes, Shard(n)) ensures At(nodes, Shard(n)).hold.until <= Clock(s.time, Shard(n)) + MAINTENANCE_TTL {
      assert ShardHold(s.time, s.nodes, s.pruners, n);
    }
  }

  lemma FenceKeeps(s: State, t: nat)
    requires Inv(s) && t in s.pruners
    ensures Inv(Fence(s, t))
  {
    hide Contents, DocsOk, Registered, Protected, Exclusive, WritersOk, StagedKept, Chain, LeasesOk, PrunersOk, HolderOk, ShardHolds, Fences, InstancesOk;
    if HeldBy(s.time, s.nodes, Global, t) { Renewed(s, Fence(s, t).nodes, t); } else { StopKeeps(s, t); }
  }

  lemma ConfirmKeeps(s: State, t: nat)
    requires Inv(s) && Running(s, t)
    ensures Inv(Confirm(s, t))
  {
    hide Contents, DocsOk, Registered, Protected, Exclusive, WritersOk, StagedKept, Chain, LeasesOk, PrunersOk, HolderOk, ShardHolds, Fences, InstancesOk;
    FenceKeeps(s, t);
    if HeldBy(s.time, s.nodes, Global, t) {
      var s1 := Fence(s, t);
      Renewed(s, s1.nodes, t);
      Confirmed(s1, t);
    }
  }

  lemma Confirmed(s: State, t: nat)
    requires Inv(s) && Running(s, t) && HeldBy(s.time, s.nodes, Global, t)
    requires forall n :: Locked(s.time, s.nodes, Shard(n)) && At(s.nodes, Shard(n)).hold.token == t ==>
               At(s.nodes, Shard(n)).hold.until - Clock(s.time, Shard(n)) <= At(s.nodes, Global).hold.until - Clock(s.time, Global)
    ensures Inv(SetPruner(s, t, s.pruners[t].(between := {})))
  {
    hide Contents, DocsOk, Registered, Protected, Exclusive, WritersOk, StagedKept, Chain, LeasesOk, Fences, InstancesOk, At;
    var pruners := s.pruners[t := s.pruners[t].(between := {})];
    forall n ensures ShardHold(s.time, s.nodes, pruners, n) { assert ShardHold(s.time, s.nodes, s.pruners, n); }
    assert Covers(s.docs, s.pruners[t]);
    SamePruners(s.nodes, s.pruners, pruners, s.writers);
  }

  lemma GrantKeeps(s: State, t: nat, shard: nat)
    requires Inv(s) && Sweeping(s, t)
    ensures Inv(Grant(s, t, shard))
  {
    hide Contents, DocsOk, Registered, Protected, Exclusive, WritersOk, StagedKept, Chain, LeasesOk, PrunersOk, HolderOk, ShardHolds, Fences, InstancesOk;
    if GrantRefused(s, t, shard) {
      StopKeeps(s, t);
    } else {
      PrunerFacts(s, t);
      var p := s.pruners[t].(between := {shard});
      assert Covers(s.docs, p);
      PrunerChange(s, t, p);
      var s1 := SetPruner(s, t, p);
      Granted(s1, t, shard, Grant(s, t, shard).nodes);
      SameGlobal(s1, Grant(s, t, shard).nodes);
    }
  }

  lemma Granted(s: State, t: nat, shard: nat, nodes: Nodes)
    requires Inv(s) && t in s.pruners && shard in s.pruners[t].between && t <= At(s.nodes, Global).fence
    requires forall ns :: ns != Shard(shard) ==> At(nodes, ns) == At(s.nodes, ns)
    requires At(nodes, Shard(shard)).hold == Held(t, Clock(s.time, Shard(shard)) + MAINTENANCE_TTL) && At(nodes, Shard(shard)).fence == t
    ensures ShardHolds(s.time, nodes, s.pruners) && Fences(nodes, s.pruners, s.writers)
  {
    hide Contents, DocsOk, Registered, Protected, Exclusive, WritersOk, StagedKept, Chain, LeasesOk, PrunersOk, HolderOk, InstancesOk, At;
    forall n ensures ShardHold(s.time, nodes, s.pruners, n) { assert ShardHold(s.time, s.nodes, s.pruners, n); }
  }

  lemma ReleaseKeeps(s: State, t: nat, ns: Ns)
    requires Inv(s) && t in s.pruners && (ns == Global ==> s.pruners[t].stopped)
    ensures Inv(Release(s, t, ns))
  {
    hide Contents, DocsOk, Registered, Protected, Exclusive, WritersOk, StagedKept, Chain, LeasesOk, PrunersOk, HolderOk, ShardHolds, Fences, InstancesOk;
    if HeldBy(s.time, s.nodes, ns, t) {
      var s1 := Release(s, t, ns);
      Released(s, t, ns, s1.nodes);
      if ns != Global { SameGlobal(s, s1.nodes); }
    }
  }

  lemma Released(s: State, t: nat, ns: Ns, nodes: Nodes)
    requires Inv(s) && t in s.pruners && (ns == Global ==> s.pruners[t].stopped) && HeldBy(s.time, s.nodes, ns, t)
    requires forall x :: x != ns ==> At(nodes, x) == At(s.nodes, x)
    requires At(nodes, ns) == At(s.nodes, ns).(hold := Free)
    ensures ShardHolds(s.time, nodes, s.pruners) && Fences(nodes, s.pruners, s.writers)
    ensures ns == Global ==>
              && Exclusive(s.time, nodes) && StagedKept(s.time, nodes, s.disk.store, s.writers)
              && HolderOk(s.time, nodes, s.active, s.leases, s.disk.scores, s.pruners)
  {
    hide Contents, DocsOk, Registered, Protected, WritersOk, Chain, LeasesOk, PrunersOk, InstancesOk, At, Current;
    forall n ensures ShardHold(s.time, nodes, s.pruners, n) { assert ShardHold(s.time, s.nodes, s.pruners, n); }
    forall id | Writing(s.time, nodes, Global, id) ensures Writing(s.time, s.nodes, Global, id) { }
  }

  // ----- deleting -----

  /** A running pruner that may delete in a namespace holds the global token. */
  lemma DeleteNeedsGlobalToken(s: State, t: nat, ns: Ns)
    requires Inv(s) && Sweeping(s, t) && HeldBy(s.time, s.nodes, ns, t)
    ensures HeldBy(s.time, s.nodes, Global, t)
  {
    hide Contents, DocsOk, Registered, Protected, Exclusive, WritersOk, StagedKept, Chain, LeasesOk, PrunersOk, HolderOk, Fences, InstancesOk, At;
    if ns.Shard? { assert ShardHold(s.time, s.nodes, s.pruners, ns.n); }
  }

  /** Nothing that a kept generation reaches is on the list of dead records. */
  lemma KeptSurvives(docs: Docs, store: map<Key, Doc>, p: Pruner, batch: set<Key>, g: nat)
    requires Covers(docs, p) && p.phase == Sweep && p.toRead == {} && g in p.keep && batch <= p.dead && Intact(docs, store, g)
    ensures Intact(docs, store - batch, g)
  {
    assert ReadIn(docs, p.refs, GenKey(g));
    forall r | r in docs[GenKey(g)].refs ensures r !in p.dead { }
    forall m | m in docs[GenKey(g)].refs && m.ManifestKey? ensures RefsStored(docs, store - batch, m) {
      assert RefsStored(docs, store, m) && m in p.refs && ReadIn(docs, p.refs, m);
    }
  }

  lemma Deleted(s: State, t: nat, ns: Ns, batch: set<Key>)
    requires Inv(s) && Sweeping(s, t) && batch <= s.pruners[t].dead && HeldBy(s.time, s.nodes, ns, t)
    ensures Protected(s.time, s.docs, s.disk.store - batch, s.active, s.leases)
    ensures StagedKept(s.time, s.nodes, s.disk.store - batch, s.writers)
  {
    hide Contents, DocsOk, Registered, WritersOk, Chain, LeasesOk, PrunersOk, HolderOk, ShardHolds, Fences, InstancesOk, Intact, Covers, At;
    DeleteNeedsGlobalToken(s, t, ns);
    PrunerFacts(s, t);
    var p := s.pruners[t];
    KeptSurvives(s.docs, s.disk.store, p, batch, s.active);
    forall id | Reading(s.time, s.leases, id) ensures Intact(s.docs, s.disk.store - batch, s.leases[id].gen) {
      KeptSurvives(s.docs, s.disk.store, p, batch, s.leases[id].gen);
    }
  }

  lemma DeletedRecords(s: State, batch: set<Key>)
    requires Inv(s)
    ensures var scores := map g | g in s.disk.scores && GenKey(g) !in batch :: s.disk.scores[g];
            && Contents(s.docs, s.disk.store - batch) && Registered(Disk(s.disk.store - batch, scores, s.disk.registry - batch))
            && HolderOk(s.time, s.nodes, s.active, s.leases, scores, s.pruners)
  {
    hide DocsOk, Protected, Exclusive, WritersOk, StagedKept, Chain, LeasesOk, PrunersOk, ShardHolds, Fences, InstancesOk, At, Known;
  }

  lemma DeleteKeeps(s: State, t: nat, ns: Ns, batch: set<Key>)
    requires Inv(s) && Sweeping(s, t) && batch <= s.pruners[t].dead
    ensures Inv(Delete(s, t, ns, batch))
  {
    hide Contents, DocsOk, Registered, Protected, Exclusive, WritersOk, StagedKept, Chain, LeasesOk, PrunersOk, HolderOk, ShardHolds, Fences, InstancesOk;
    if HeldBy(s.time, s.nodes, ns, t) {
      Deleted(s, t, ns, batch);
      DeletedRecords(s, batch);
    } else {
      StopKeeps(s, t);
    }
  }

  // ----- serving -----

  lemma CommittedBound(docs: Docs, active: nat, log: Log, g: nat)
    requires Chain(docs, active, log) && g in log.committed
    ensures log.committed[g] <= |log.commits| + 1
  {
    assert InChain(log.commits, g);
    var i :| 0 <= i <= |log.commits| && GenAt(log.commits, i) == g;
    assert Numbered(docs, log, i);
  }

  lemma SetInstance(instances: map<nat, Instance>, committed: map<nat, nat>, i: nat, x: Instance)
    requires InstancesOk(instances, committed) && InstanceOk(committed, x)
    ensures InstancesOk(instances[i := x], committed)
  {
  }

  lemma InstanceFacts(instances: map<nat, Instance>, committed: map<nat, nat>, i: nat)
    requires InstancesOk(instances, committed) && i in instances
    ensures InstanceOk(committed, instances[i])
  {
  }

  lemma PinKeeps(s: State, i: nat, id: nat, duration: nat)
    requires Inv(s) && i in s.instances && id !in s.used
    ensures Inv(Pin(s, i, id, duration))
  {
    hide Contents, DocsOk, Registered, Protected, Exclusive, WritersOk, StagedKept, Chain, LeasesOk, PrunersOk, HolderOk, ShardHolds, Fences, InstancesOk;
    if !Locked(s.time, s.nodes, Global) {
      OpenLeaseKeeps(s, id, duration);
      ActiveCommitted(s);
      InstanceFacts(s.instances, s.log.committed, i);
      var x := s.instances[i];
      if x.serving.Gen? { CommittedBound(s.docs, s.active, s.log, x.serving.g); }
      SetInstance(s.instances, s.log.committed, i, x.(pinned := Gen(s.active)));
    }
  }

  lemma InstancesKeep(s: State, i: nat, x: Instance)
    requires Inv(s) && InstanceOk(s.log.committed, x)
    ensures Inv(s.(instances := s.instances[i := x]))
  {
    hide Contents, DocsOk, Registered, Protected, Exclusive, WritersOk, StagedKept, Chain, LeasesOk, PrunersOk, HolderOk, ShardHolds, Fences, InstancesOk;
    SetInstance(s.instances, s.log.committed, i, x);
  }

  // ----- all of them -----

  lemma ReaderKeeps(s: State, id: nat, r: ReaderAction)
    requires Inv(s) && (r.RAcquire? ==> id !in s.used)
    ensures Inv(ReaderStep(s, id, r))
  {
    hide Inv, OpenLease, RenewLease, CloseLease;
    match r
    case RAcquire(duration) => OpenLeaseKeeps(s, id, duration);
    case RRenew(duration) => RenewLeaseKeeps(s, id, duration);
    case RClose => CloseLeaseKeeps(s, id);
  }

  lemma WriterKeeps(s: State, id: nat, w: WriterAction)
    requires Inv(s) && WriterEnabled(s, id, w)
    ensures Inv(WriterStep(s, id, w))
  {
    hide Inv, OpenWriter, RenewWriter, CloseWriter, PlanChange, PlanNothing, ReadDeadline, Mirror, Stage, CommitWrite, PlanOk;
    match w
    case WAcquire(expected, duration) => OpenWriterKeeps(s, id, expected, duration);
    case WRenew(duration) => RenewWriterKeeps(s, id, duration);
    case WClose(ns) => CloseWriterKeeps(s, id, ns);
    case WChange(more, toStage, result) => PlanChangeKeeps(s, id, more, toStage, result);
    case WNothing => PlanNothingKeeps(s, id);
    case WDeadline(shard) => ReadDeadlineKeeps(s, id, shard);
    case WMirror(d) => MirrorKeeps(s, id, d);
    case WStage(k) => StageKeeps(s, id, k);
    case WCommit => CommitKeeps(s, id);
  }

  lemma PrunerKeeps(s: State, t: nat, p: PrunerAction)
    requires Inv(s) && t in s.pruners && PrunerEnabled(s, t, p)
    ensures Inv(PrunerStep(s, t, p))
  {
    hide Inv, KeepActive, KeepLeased, KeepRecent, ReadManifest, Fence, ListDead, Delete, Grant, Confirm, Release, Stop;
    match p
    case PActive => KeepActiveKeeps(s, t);
    case PLeases => KeepLeasedKeeps(s, t);
    case PGenerations => KeepRecentKeeps(s, t);
    case PManifest(k) => ReadManifestKeeps(s, t, k);
    case PFence => FenceKeeps(s, t);
    case PList(ns) => ListDeadKeeps(s, t, ns);
    case PDelete(ns, batch) => DeleteKeeps(s, t, ns, batch);
    case PGrant(shard) => GrantKeeps(s, t, shard);
    case PConfirm => ConfirmKeeps(s, t);
    case PRelease(ns) => ReleaseKeeps(s, t, ns);
    case PStop => StopKeeps(s, t);
  }

  lemma InstanceKeeps(s: State, i: nat, v: InstanceAction)
    requires Inv(s) && InstanceEnabled(s, i, v)
    ensures Inv(InstanceStep(s, i, v))
  {
    hide Inv, Pin;
    match v
    case IStart => InstancesKeep(s, i, Instance(Empty, Empty));
    case IPin(id, duration) => PinKeeps(s, i, id, duration);
    case IInstall => InstanceInv(s, i); InstancesKeep(s, i, Instance(s.instances[i].pinned, Empty));
    case IGiveUp => InstanceInv(s, i); InstancesKeep(s, i, s.instances[i].(pinned := Empty));
  }

  /** The invariant is inductive. */
  lemma StepKeeps(s: State, a: Action)
    requires Inv(s) && Enabled(s, a)
    ensures Inv(Apply(s, a))
  {
    hide Inv, ReaderStep, WriterStep, Maintain, PrunerStep, InstanceStep, WriterEnabled, PrunerEnabled, InstanceEnabled;
    match a
    case Tick(millis) => TickKeeps(s, millis);
    case ReaderAct(id, r) => ReaderKeeps(s, id, r);
    case WriterAct(id, w) => WriterKeeps(s, id, w);
    case StartPrune => MaintainKeeps(s);
    case PrunerAct(t, p) => PrunerKeeps(s, t, p);
    case InstanceAct(i, v) => InstanceKeeps(s, i, v);
  }

  lemma InstanceInv(s: State, i: nat)
    requires Inv(s) && i in s.instances
    ensures InstanceOk(s.log.committed, s.instances[i])
  {
    hide Contents, DocsOk, Registered, Protected, Exclusive, WritersOk, StagedKept, Chain, LeasesOk, PrunersOk, HolderOk, ShardHolds, Fences, InstancesOk;
    InstanceFacts(s.instances, s.log.committed, i);
  }
}
