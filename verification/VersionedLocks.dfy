/** What the maintenance keys, writer leases and fences guarantee in every namespace. */
module VersionedLocks {
  import opened VersionedStore
  import opened VersionedInvariant
  import opened VersionedRuns

  // ----- holding a maintenance key -----

  /** A namespace's maintenance key stays with its holder until the holder releases it
      or time runs out. */
  lemma HolderKeepsKey(s: State, a: Action, ns: Ns, t: nat)
    requires Enabled(s, a) && HeldBy(s.time, s.nodes, ns, t)
    ensures HeldBy(Apply(s, a).time, Apply(s, a).nodes, ns, t) || a.Tick? || a == PrunerAct(t, PRelease(ns))
  {
    hide ReaderStep, PrunerStep, WriterStep, InstanceStep, WriterEnabled, PrunerEnabled, InstanceEnabled, Maintain, HeldBy;
    match a
    case Tick(_) =>
    case ReaderAct(id, r) => ReaderFrame(s, id, r);
    case WriterAct(id, w) => WriterKeepsKey(s, id, w, ns, t);
    case StartPrune => MaintainKeepsKey(s, ns, t);
    case PrunerAct(u, p) => PrunerKeepsKey(s, u, p, ns, t);
    case InstanceAct(i, v) => InstanceFrame(s, i, v);
  }

  lemma WriterKeepsKey(s: State, id: nat, w: WriterAction, ns: Ns, t: nat)
    requires WriterEnabled(s, id, w) && HeldBy(s.time, s.nodes, ns, t)
    ensures HeldBy(WriterStep(s, id, w).time, WriterStep(s, id, w).nodes, ns, t)
  {
    hide PlanOk, Writing, Clock, Stage, CommitWrite;
    if w.WStage? { StageFrame(s, id, w.key); }
    if w.WCommit? { CommitFrame(s, id); }
  }

  lemma MaintainKeepsKey(s: State, ns: Ns, t: nat)
    requires HeldBy(s.time, s.nodes, ns, t)
    ensures HeldBy(Maintain(s).time, Maintain(s).nodes, ns, t)
  {
    hide Clock, AnyWriting, Unexpired, Maintain;
    MaintainFrame(s);
    MaintainHolds(s, ns);
  }

  lemma MaintainHolds(s: State, ns: Ns)
    ensures ns != Global || Locked(s.time, s.nodes, Global) ==> At(Maintain(s).nodes, ns).hold == At(s.nodes, ns).hold
  {
    hide Clock, Locked, AnyWriting, Unexpired, LiveLeases, NewPruner;
  }

  lemma PrunerKeepsKey(s: State, u: nat, p: PrunerAction, ns: Ns, t: nat)
    requires u in s.pruners && HeldBy(s.time, s.nodes, ns, t)
    ensures HeldBy(PrunerStep(s, u, p).time, PrunerStep(s, u, p).nodes, ns, t) || (u == t && p == PRelease(ns))
  {
    hide Fence, Confirm, Grant, Release, KeepActive, KeepLeased, KeepRecent, ReadManifest, ListDead, Delete, Stop, At;
    match p
    case PFence => FenceFrame(s, u); FenceNodes(s, u, ns);
    case PConfirm => ConfirmFrame(s, u); ConfirmNodes(s, u); FenceNodes(s, u, ns);
    case PGrant(shard) => GrantFrame(s, u, shard); GrantNodes(s, u, shard, ns);
    case PRelease(n) => ReleaseFrame(s, u, n); ReleaseNodes(s, u, n, ns);
    case _ => PrunerReads(s, u, p);
  }

  // ----- writers and maintenance exclude each other -----

  ghost predicate NoOverlap(time: Time, nodes: Nodes, ns: Ns) {
    Locked(time, nodes, ns) ==> forall id :: !Writing(time, nodes, ns, id)
  }

  lemma OverlapStep(s: State, a: Action, n: nat)
    requires Enabled(s, a) && NoOverlap(s.time, s.nodes, Shard(n))
    ensures NoOverlap(Apply(s, a).time, Apply(s, a).nodes, Shard(n))
  {
    hide ReaderStep, PrunerStep, WriterStep, InstanceStep, WriterEnabled, PrunerEnabled, InstanceEnabled, Maintain, NoOverlap;
    match a
    case Tick(millis) => OverlapLater(s, s.time.(now := s.time.now + millis), Shard(n));
    case ReaderAct(id, r) => ReaderFrame(s, id, r);
    case WriterAct(id, w) => WriterOverlap(s, id, w, n);
    case StartPrune => MaintainOverlap(s, n);
    case PrunerAct(t, p) => PrunerOverlap(s, t, p, n);
    case InstanceAct(i, v) => InstanceFrame(s, i, v);
  }

  lemma OverlapLater(s: State, time: Time, ns: Ns)
    requires NoOverlap(s.time, s.nodes, ns) && time.skew == s.time.skew && time.now >= s.time.now
    ensures NoOverlap(time, s.nodes, ns)
  {
    forall id | Writing(time, s.nodes, ns, id) ensures Writing(s.time, s.nodes, ns, id) { }
  }

  /** Same key, and no writer that was not valid before. */
  lemma OverlapFewer(time: Time, nodes: Nodes, after: Nodes, ns: Ns)
    requires NoOverlap(time, nodes, ns) && (Locked(time, after, ns) ==> Locked(time, nodes, ns))
    requires forall id :: Writing(time, after, ns, id) ==> Writing(time, nodes, ns, id)
    ensures NoOverlap(time, after, ns)
  {
    hide Locked, Writing;
  }

  lemma WriterOverlap(s: State, id: nat, w: WriterAction, n: nat)
    requires WriterEnabled(s, id, w) && NoOverlap(s.time, s.nodes, Shard(n))
    ensures NoOverlap(WriterStep(s, id, w).time, WriterStep(s, id, w).nodes, Shard(n))
  {
    hide PlanOk, Writing, Stage, CommitWrite, NoOverlap;
    if w.WStage? { StageFrame(s, id, w.key); }
    if w.WCommit? { CommitFrame(s, id); }
    if w.WMirror? { MirrorOverlap(s, id, w.d, n); }
    if w.WClose? { CloseOverlap(s, id, w.ns, n); }
    if w.WAcquire? || w.WRenew? { GlobalOnly(s, WriterStep(s, id, w).nodes, n); }
  }

  lemma GlobalOnly(s: State, nodes: Nodes, n: nat)
    requires NoOverlap(s.time, s.nodes, Shard(n)) && At(nodes, Shard(n)) == At(s.nodes, Shard(n))
    ensures NoOverlap(s.time, nodes, Shard(n))
  {
    hide At;
    forall id | Writing(s.time, nodes, Shard(n), id) ensures Writing(s.time, s.nodes, Shard(n), id) { }
  }

  lemma MirrorOverlap(s: State, id: nat, d: Deadline, n: nat)
    requires NoOverlap(s.time, s.nodes, Shard(n))
    ensures NoOverlap(s.time, Mirror(s, id, d).nodes, Shard(n))
  {
    if d.shard != n { GlobalOnly(s, Mirror(s, id, d).nodes, n); }
  }

  lemma CloseOverlap(s: State, id: nat, ns: Ns, n: nat)
    requires NoOverlap(s.time, s.nodes, Shard(n))
    ensures NoOverlap(s.time, CloseWriter(s, id, ns).nodes, Shard(n))
  {
    OverlapFewer(s.time, s.nodes, CloseWriter(s, id, ns).nodes, Shard(n));
  }

  lemma MaintainOverlap(s: State, n: nat)
    requires NoOverlap(s.time, s.nodes, Shard(n))
    ensures NoOverlap(Maintain(s).time, Maintain(s).nodes, Shard(n))
  {
    hide MaintainedNode, MaintainRefused, LiveLeases, NewPruner, NoOverlap;
    MaintainFrame(s);
    GlobalOnly(s, Maintain(s).nodes, n);
  }

  lemma PrunerOverlap(s: State, t: nat, p: PrunerAction, n: nat)
    requires t in s.pruners && NoOverlap(s.time, s.nodes, Shard(n))
    ensures NoOverlap(PrunerStep(s, t, p).time, PrunerStep(s, t, p).nodes, Shard(n))
  {
    hide Fence, Confirm, Grant, Release, KeepActive, KeepLeased, KeepRecent, ReadManifest, ListDead, Delete, Stop, NoOverlap;
    match p
    case PFence => FenceOverlap(s, t, n);
    case PConfirm => ConfirmOverlap(s, t, n);
    case PGrant(shard) => GrantOverlap(s, t, shard, n);
    case PRelease(ns) => ReleaseOverlap(s, t, ns, n);
    case _ => PrunerReads(s, t, p);
  }

  lemma FenceOverlap(s: State, t: nat, n: nat)
    requires t in s.pruners && NoOverlap(s.time, s.nodes, Shard(n))
    ensures NoOverlap(Fence(s, t).time, Fence(s, t).nodes, Shard(n))
  {
    hide HeldBy, NoOverlap;
    GlobalOnly(s, Fence(s, t).nodes, n);
  }

  lemma ConfirmOverlap(s: State, t: nat, n: nat)
    requires t in s.pruners && NoOverlap(s.time, s.nodes, Shard(n))
    ensures NoOverlap(Confirm(s, t).time, Confirm(s, t).nodes, Shard(n))
  {
    hide NoOverlap, Fence;
    FenceFrame(s, t);
    FenceOverlap(s, t, n);
  }

  /** A grant finds no writer on the shard. */
  lemma GrantOverlap(s: State, t: nat, shard: nat, n: nat)
    requires t in s.pruners && NoOverlap(s.time, s.nodes, Shard(n))
    ensures NoOverlap(Grant(s, t, shard).time, Grant(s, t, shard).nodes, Shard(n))
  {
    GrantFrame(s, t, shard);
    if shard != n || GrantRefused(s, t, shard) {
      GlobalOnly(s, Grant(s, t, shard).nodes, n);
    } else {
      forall id ensures !Writing(s.time, Grant(s, t, shard).nodes, Shard(n), id) { assert !Writing(s.time, s.nodes, Shard(n), id); }
    }
  }

  lemma ReleaseOverlap(s: State, t: nat, ns: Ns, n: nat)
    requires NoOverlap(s.time, s.nodes, Shard(n))
    ensures NoOverlap(Release(s, t, ns).time, Release(s, t, ns).nodes, Shard(n))
  {
    hide Release, At, NoOverlap;
    ReleaseFrame(s, t, ns);
    ReleaseNodes(s, t, ns, Shard(n));
    if At(Release(s, t, ns).nodes, Shard(n)) == At(s.nodes, Shard(n)) {
      GlobalOnly(s, Release(s, t, ns).nodes, n);
    } else {
      FreeNode(s.time, Release(s, t, ns).nodes, n);
    }
  }

  lemma FreeNode(time: Time, nodes: Nodes, n: nat)
    requires At(nodes, Shard(n)).hold.Free?
    ensures NoOverlap(time, nodes, Shard(n))
  {
  }

  lemma {:induction false} ShardNeverOverlaps(r: seq<State>, i: nat, n: nat)
    requires Run(r) && i < |r|
    ensures NoOverlap(r[i].time, r[i].nodes, Shard(n))
  {
    hide Enabled, Apply;
    if i > 0 {
      ShardNeverOverlaps(r, i - 1, n);
      RunStep(r, i - 1);
      var a :| Enabled(r[i - 1], a) && r[i] == Apply(r[i - 1], a);
      OverlapStep(r[i - 1], a, n);
    }
  }

  /** In no namespace is a writer lease valid while the maintenance key exists: nothing
      is staged where a pruner may be deleting. */
  lemma WritersAndMaintenanceExclude(r: seq<State>, i: nat, ns: Ns)
    requires Run(r) && i < |r|
    ensures NoOverlap(r[i].time, r[i].nodes, ns)
  {
    hide Run, Contents, DocsOk, Registered, Protected, WritersOk, StagedKept, Chain, LeasesOk, PrunersOk, HolderOk, ShardHolds, Fences, InstancesOk;
    if ns.Shard? {
      ShardNeverOverlaps(r, i, ns.n);
    } else {
      RunKeeps(r, i);
    }
  }

  // ----- fences -----

  lemma {:induction false} FencesGrow(r: seq<State>, i: nat, j: nat, ns: Ns)
    requires Run(r) && i <= j < |r|
    ensures At(r[i].nodes, ns).fence <= At(r[j].nodes, ns).fence
    decreases j - i
  {
    hide Inv, Enabled, Apply, Run, At;
    if i < j {
      FencesGrow(r, i, j - 1, ns);
      RunStep(r, j - 1);
      RunKeeps(r, j - 1);
      var a :| Enabled(r[j - 1], a) && r[j] == Apply(r[j - 1], a);
      FencesNeverDecrease(r[j - 1], a, ns);
    }
  }

  /** A deadline read before maintenance began is never mirrored to a shard that this
      maintenance, or a later one, has fenced. */
  lemma DelayedMirrorRefused(r: seq<State>, i: nat, j: nat, k: nat, id: nat, d: Deadline)
    requires Run(r) && i <= j <= k < |r| && id in r[i].writers && d in r[i].writers[id].deadlines
    requires At(r[j].nodes, Shard(d.shard)).fence > At(r[i].nodes, Global).fence
    ensures Mirror(r[k], id, d) == r[k]
  {
    hide Run, Contents, DocsOk, Registered, Protected, Exclusive, WritersOk, StagedKept, Chain, LeasesOk, PrunersOk, HolderOk, ShardHolds, InstancesOk, At;
    RunKeeps(r, i);
    assert DeadlinesOk(r[i].writers[id], At(r[i].nodes, Global).fence);
    FencesGrow(r, j, k, Shard(d.shard));
  }
}
