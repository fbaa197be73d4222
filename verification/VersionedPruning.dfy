/** What a prune deletes: exactly what no kept generation needs
    (pkg/acor/versioned_prune.go). */
module VersionedPruning {
  import opened VersionedStore
  import opened VersionedInvariant
  import opened VersionedSteps
  import opened VersionedRuns
  import opened VersionedLocks
  import opened VersionedLeases

  /** Some kept generation reaches the record. */
  ghost predicate Wanted(docs: Docs, keep: set<nat>, k: Key) {
    exists g :: g in keep && Reaches(docs, g, k)
  }

  // ----- what a pruner has collected -----

  /** References come from kept generations, and so do the documents still to read. */
  ghost predicate Traced(docs: Docs, p: Pruner) {
    && (forall k {:trigger k in p.refs} :: k in p.refs ==> Wanted(docs, p.keep, k))
    && (forall k {:trigger k in p.toRead} :: k in p.toRead ==> if k.GenKey? then k.gen in p.keep else k in p.refs)
  }

  ghost predicate AllTraced(s: State) { forall t {:trigger t in s.pruners} :: t in s.pruners ==> Traced(s.docs, s.pruners[t]) }

  lemma TracedStep(s: State, a: Action)
    requires Inv(s) && Enabled(s, a) && AllTraced(s)
    ensures AllTraced(Apply(s, a))
  {
    hide Inv, ReaderStep, PrunerStep, WriterStep, InstanceStep, Maintain, WriterEnabled, PrunerEnabled, InstanceEnabled, Traced;
    match a
    case Tick(_) =>
    case ReaderAct(x, r) => ReaderFrame(s, x, r);
    case WriterAct(x, w) => WriterTraced(s, x, w);
    case StartPrune => MaintainTraced(s);
    case PrunerAct(t, p) => PrunerTraced(s, t, p);
    case InstanceAct(i, v) => InstanceFrame(s, i, v);
  }

  lemma WriterTraced(s: State, x: nat, w: WriterAction)
    requires Inv(s) && WriterEnabled(s, x, w) && AllTraced(s)
    ensures AllTraced(WriterStep(s, x, w))
  {
    hide Inv, WriterStep, WriterEnabled, Traced;
    WriterFrame(s, x, w);
    WriterDocs(s, x, w);
    forall t | t in s.pruners ensures Traced(WriterStep(s, x, w).docs, s.pruners[t]) {
      TracedLater(s, WriterStep(s, x, w), s.pruners[t]);
    }
  }

  lemma TracedLater(s: State, t: State, p: Pruner)
    requires Traced(s.docs, p) && DocsGrow(s, t)
    ensures Traced(t.docs, p)
  {
    hide Reaches, DocsGrow;
    forall k | k in p.refs ensures Wanted(t.docs, p.keep, k) { WantedLater(s, t, p.keep, k); }
  }

  lemma WantedLater(s: State, t: State, keep: set<nat>, k: Key)
    requires DocsGrow(s, t) && Wanted(s.docs, keep, k)
    ensures Wanted(t.docs, keep, k)
  {
    hide Reaches;
    var g :| g in keep && Reaches(s.docs, g, k);
    ReachesLater(s, t, g, k);
  }

  lemma MaintainTraced(s: State)
    requires AllTraced(s)
    ensures AllTraced(Maintain(s))
  {
    hide MaintainRefused, MaintainedNode, LiveLeases;
  }

  lemma PrunerTraced(s: State, t: nat, p: PrunerAction)
    requires Inv(s) && t in s.pruners && PrunerEnabled(s, t, p) && AllTraced(s)
    ensures AllTraced(PrunerStep(s, t, p))
  {
    hide Inv, Traced, PrunerStep, OnlyAt, SameCollected;
    PrunerFrame(s, t, p);
    OnlyThisPruner(s, t, p);
    EachTraced(s, t, p);
    OthersTraced(s.docs, s.pruners, PrunerStep(s, t, p).pruners, t);
  }

  lemma EachTraced(s: State, t: nat, p: PrunerAction)
    requires Inv(s) && t in s.pruners && PrunerEnabled(s, t, p) && AllTraced(s)
    ensures t in PrunerStep(s, t, p).pruners && Traced(s.docs, PrunerStep(s, t, p).pruners[t])
  {
    hide Inv, Traced, Fence, Confirm, Grant, Release, KeepActive, KeepLeased, KeepRecent, ReadManifest, ListDead, Delete, Stop, SameCollected;
    OnlyThisPruner(s, t, p);
    assert Traced(s.docs, s.pruners[t]);
    match p
    case PActive => EarlyTraced(s, t, p);
    case PLeases => EarlyTraced(s, t, p);
    case PGenerations => EarlyTraced(s, t, p);
    case PManifest(k) => ReadTraced(s, t, k);
    case _ => SameCollection(s, t, p); SameTraced(s.docs, s.pruners[t], PrunerStep(s, t, p).pruners[t]);
  }

  /** One entry changed. */
  predicate OnlyAt(pruners: map<nat, Pruner>, after: map<nat, Pruner>, t: nat) {
    t in after && after == pruners[t := after[t]]
  }

  /** The same collection; the list of dead records and the flags may differ. */
  predicate SameCollected(was: Pruner, q: Pruner) {
    q == was.(dead := q.dead, between := q.between, stopped := q.stopped)
  }

  lemma OnlyThisPruner(s: State, t: nat, p: PrunerAction)
    requires t in s.pruners
    ensures OnlyAt(s.pruners, PrunerStep(s, t, p).pruners, t)
  {
    hide HeldBy, Fence, Confirm, Grant, Release;
    match p
    case PFence => FencePruners(s, t);
    case PConfirm => ConfirmPruners(s, t);
    case PGrant(n) => GrantPruners(s, t, n);
    case PRelease(ns) => ReleaseFrame(s, t, ns);
    case _ =>
  }

  lemma SetOne(pruners: map<nat, Pruner>, t: nat, q: Pruner)
    requires t in pruners
    ensures OnlyAt(pruners, pruners[t := q], t) && OnlyAt(pruners, pruners, t)
  {
    assert pruners == pruners[t := pruners[t]];
  }

  lemma FencePruners(s: State, t: nat)
    requires t in s.pruners
    ensures OnlyAt(s.pruners, Fence(s, t).pruners, t) && SameCollected(s.pruners[t], Fence(s, t).pruners[t])
    ensures Fence(s, t).pruners[t].dead == s.pruners[t].dead
  {
    hide HeldBy, At, Clock, OnlyAt;
    SetOne(s.pruners, t, s.pruners[t].(stopped := true));
  }

  lemma ConfirmPruners(s: State, t: nat)
    requires t in s.pruners
    ensures OnlyAt(s.pruners, Confirm(s, t).pruners, t) && SameCollected(s.pruners[t], Confirm(s, t).pruners[t])
    ensures Confirm(s, t).pruners[t].dead == s.pruners[t].dead
  {
    hide HeldBy, At, Clock, OnlyAt;
    SetOne(s.pruners, t, s.pruners[t].(stopped := true));
    SetOne(s.pruners, t, s.pruners[t].(between := {}));
  }

  lemma GrantPruners(s: State, t: nat, n: nat)
    requires t in s.pruners
    ensures OnlyAt(s.pruners, Grant(s, t, n).pruners, t) && SameCollected(s.pruners[t], Grant(s, t, n).pruners[t])
    ensures Grant(s, t, n).pruners[t].dead == s.pruners[t].dead
  {
    hide GrantRefused, At, Clock, Unexpired, OnlyAt;
    SetOne(s.pruners, t, s.pruners[t].(stopped := true));
    SetOne(s.pruners, t, s.pruners[t].(between := {n}));
  }

  lemma OthersTraced(docs: Docs, pruners: map<nat, Pruner>, after: map<nat, Pruner>, t: nat)
    requires OnlyAt(pruners, after, t) && Traced(docs, after[t]) && forall u {:trigger u in pruners} :: u in pruners ==> Traced(docs, pruners[u])
    ensures forall u {:trigger u in after} :: u in after ==> Traced(docs, after[u])
  {
    hide Traced;
  }

  /** Steps other than the reading ones change nothing of what was collected. */
  lemma SameCollection(s: State, t: nat, p: PrunerAction)
    requires t in s.pruners && !(p.PActive? || p.PLeases? || p.PGenerations? || p.PManifest?)
    ensures OnlyAt(s.pruners, PrunerStep(s, t, p).pruners, t) && SameCollected(s.pruners[t], PrunerStep(s, t, p).pruners[t])
    ensures !p.PList? ==> PrunerStep(s, t, p).pruners[t].dead == s.pruners[t].dead
  {
    hide HeldBy, Fence, Confirm, Grant, Release, At, Clock;
    match p
    case PFence => FencePruners(s, t);
    case PConfirm => ConfirmPruners(s, t);
    case PGrant(n) => GrantPruners(s, t, n);
    case PRelease(ns) => ReleaseFrame(s, t, ns);
    case _ =>
  }

  lemma SameTraced(docs: Docs, was: Pruner, q: Pruner)
    requires Traced(docs, was) && SameCollected(was, q)
    ensures Traced(docs, q)
  {
    hide Wanted;
  }

  lemma EarlyTraced(s: State, t: nat, p: PrunerAction)
    requires Inv(s) && t in s.pruners && PrunerEnabled(s, t, p) && (p.PActive? || p.PLeases? || p.PGenerations?)
    ensures Traced(s.docs, PrunerStep(s, t, p).pruners[t])
  {
    hide Inv, Wanted;
    PrunerFacts(s, t);
  }

  lemma ReadTraced(s: State, t: nat, k: Key)
    requires Inv(s) && Running(s, t) && k in s.pruners[t].toRead && Traced(s.docs, s.pruners[t])
    ensures Traced(s.docs, ReadManifest(s, t, k).pruners[t])
  {
    hide Inv, Reaches, Wanted;
    var p, q := s.pruners[t], ReadManifest(s, t, k).pruners[t];
    if k in s.disk.store && !s.disk.store[k].ChunkDoc? {
      StoredContent(s, k);
      forall r | r in s.docs[k].refs ensures Wanted(s.docs, p.keep, r) { ReadWanted(s, p, k, r); }
    }
  }

  lemma ReadWanted(s: State, p: Pruner, k: Key, r: Key)
    requires Inv(s) && Traced(s.docs, p) && k in p.toRead && Known(s.docs, k) && !k.ChunkKey? && r in s.docs[k].refs
    ensures Wanted(s.docs, p.keep, r)
  {
    hide Contents, Registered, Protected, Exclusive, WritersOk, StagedKept, Chain, LeasesOk, PrunersOk, HolderOk, ShardHolds, Fences, InstancesOk;
    if k.GenKey? {
      assert Reaches(s.docs, k.gen, r);
    } else {
      var g :| g in p.keep && Reaches(s.docs, g, k);
      NotThroughManifest(s, g, k);
      assert ViaManifest(s.docs, g, k, r);
      assert Reaches(s.docs, g, r);
    }
  }

  /** A manifest is reached only as a reference of the generation itself. */
  lemma NotThroughManifest(s: State, g: nat, k: Key)
    requires Inv(s) && Reaches(s.docs, g, k) && k.ManifestKey?
    ensures Known(s.docs, GenKey(g)) && k in s.docs[GenKey(g)].refs
  {
    hide Contents, Registered, Protected, Exclusive, WritersOk, StagedKept, Chain, LeasesOk, PrunersOk, HolderOk, ShardHolds, Fences, InstancesOk;
    assert forall m :: m in s.docs ==> DocOk(s.docs, s.writers, m);
  }

  lemma {:induction false} RunTraced(r: seq<State>, acts: seq<Action>, i: nat)
    requires Trace(r, acts) && i <= |acts| <= |r|
    ensures AllTraced(r[i])
  {
    hide Enabled, Apply, Trace, Inv, AllTraced;
    if i == 0 {
      StartTraced(r, acts);
    } else {
      RunTraced(r, acts, i - 1);
      TraceStep(r, acts, i - 1);
      TraceInv(r, acts, i - 1);
      TracedStep(r[i - 1], acts[i - 1]);
    }
  }

  lemma StartTraced(r: seq<State>, acts: seq<Action>)
    requires Trace(r, acts)
    ensures AllTraced(r[0])
  {
  }

  /** When everything is read, the references are exactly what the kept generations
      reach. */
  lemma ReferencesAreExact(s: State, t: nat, k: Key)
    requires Inv(s) && AllTraced(s) && Sweeping(s, t)
    ensures Wanted(s.docs, s.pruners[t].keep, k) <==> if k.GenKey? then k.gen in s.pruners[t].keep else k in s.pruners[t].refs
  {
    hide Inv, Known;
    PrunerFacts(s, t);
    var p := s.pruners[t];
    assert Traced(s.docs, p);
    if Wanted(s.docs, p.keep, k) {
      var g :| g in p.keep && Reaches(s.docs, g, k);
      assert ReadIn(s.docs, p.refs, GenKey(g));
      if m :| ViaManifest(s.docs, g, m, k) { assert ReadIn(s.docs, p.refs, m); }
    }
    if k.GenKey? && k.gen in p.keep {
      assert ReadIn(s.docs, p.refs, k);
      assert Reaches(s.docs, k.gen, k);
    }
  }

  // ----- every registered generation is listed -----

  /** While the holder of the global key sweeps, it has listed every generation there is. */
  ghost predicate ListedOk(s: State) {
    Locked(s.time, s.nodes, Global) ==>
      var t := At(s.nodes, Global).hold.token;
      t in s.pruners && (s.pruners[t].phase == Sweep ==> s.disk.scores.Keys <= s.pruners[t].listed)
  }

  lemma ListedStep(s: State, a: Action)
    requires Inv(s) && Enabled(s, a) && ListedOk(s)
    ensures ListedOk(Apply(s, a))
  {
    hide Inv, ReaderStep, PrunerStep, WriterStep, InstanceStep, Maintain, WriterEnabled, PrunerEnabled, InstanceEnabled, At;
    match a
    case Tick(_) =>
    case ReaderAct(x, r) => ReaderFrame(s, x, r);
    case WriterAct(x, w) => WriterListed(s, x, w);
    case StartPrune => MaintainListed(s);
    case PrunerAct(t, p) => PrunerListed(s, t, p);
    case InstanceAct(i, v) => InstanceFrame(s, i, v);
  }

  lemma WriterListed(s: State, x: nat, w: WriterAction)
    requires WriterEnabled(s, x, w) && ListedOk(s)
    ensures ListedOk(WriterStep(s, x, w))
  {
    hide WriterStep, WriterEnabled, At;
    WriterFrame(s, x, w);
    WriterHold(s, x, w, Global);
    if Locked(s.time, s.nodes, Global) { NothingWritten(s, x, w, Global); }
  }

  /** Maintenance in a namespace keeps writers from storing or scoring anything there. */
  lemma NothingWritten(s: State, x: nat, w: WriterAction, ns: Ns)
    requires WriterEnabled(s, x, w) && Locked(s.time, s.nodes, ns)
    ensures forall k :: k in WriterStep(s, x, w).disk.store && NsOf(k) == ns ==> k in s.disk.store
    ensures ns == Global ==> WriterStep(s, x, w).disk.scores == s.disk.scores && WriterStep(s, x, w).active == s.active
  {
    hide PlanOk, Stage, CommitWrite, OpenWriter, RenewWriter, CloseWriter, Mirror, ReadDeadline, Locked;
    if w.WStage? { StageRefused(s, x, w.key, ns); }
    if w.WCommit? { CommitRefused(s, x, ns); }
    if w.WAcquire? || w.WRenew? || w.WClose? || w.WMirror? || w.WDeadline? { LeaseFrame(s, x, w); }
  }

  lemma StageRefused(s: State, x: nat, k: Key, ns: Ns)
    requires x in s.writers && Locked(s.time, s.nodes, ns)
    ensures forall q :: q in Stage(s, x, k).disk.store && NsOf(q) == ns ==> q in s.disk.store
    ensures ns == Global ==> Stage(s, x, k).disk.scores == s.disk.scores
    ensures Stage(s, x, k).active == s.active
  {
    hide Locked, Writing, Content, Clock;
  }

  lemma CommitRefused(s: State, x: nat, ns: Ns)
    requires x in s.writers && Locked(s.time, s.nodes, ns)
    ensures CommitWrite(s, x).disk.store == s.disk.store
    ensures ns == Global ==> CommitWrite(s, x) == s
  {
    hide Locked, Writing, CommittedLog;
  }

  lemma MaintainListed(s: State)
    requires ListedOk(s)
    ensures ListedOk(Maintain(s))
  {
    hide Maintain, At;
    MaintainFrame(s);
    MaintainHolds(s, Global);
    MaintainedKey(s);
  }

  lemma PrunerListed(s: State, t: nat, p: PrunerAction)
    requires t in s.pruners && PrunerEnabled(s, t, p) && ListedOk(s)
    ensures ListedOk(PrunerStep(s, t, p))
  {
    hide PrunerStep, At, OnlyAt;
    var u := PrunerStep(s, t, p);
    PrunerFrame(s, t, p);
    PrunerHold(s, t, p);
    OnlyThisPruner(s, t, p);
    PrunerLists(s, t, p);
    assert forall x :: x in s.pruners && x != t ==> x in u.pruners && u.pruners[x] == s.pruners[x] by { assert OnlyAt(s.pruners, u.pruners, t); Others(s.pruners, u.pruners, t); }
  }

  lemma Others(pruners: map<nat, Pruner>, after: map<nat, Pruner>, t: nat)
    requires OnlyAt(pruners, after, t)
    ensures t in after && forall x :: x in pruners && x != t ==> x in after && after[x] == pruners[x]
  {
  }

  lemma PrunerHold(s: State, t: nat, p: PrunerAction)
    requires t in s.pruners
    ensures var u := PrunerStep(s, t, p);
            u.time == s.time && (Locked(u.time, u.nodes, Global) ==> Locked(s.time, s.nodes, Global) && At(u.nodes, Global).hold.token == At(s.nodes, Global).hold.token)
  {
    hide Fence, Confirm, Grant, Release, KeepActive, KeepLeased, KeepRecent, ReadManifest, ListDead, Delete, Stop, At, Clock;
    match p
    case PFence => FenceFrame(s, t); FenceNodes(s, t, Global);
    case PConfirm => ConfirmFrame(s, t); ConfirmNodes(s, t); FenceNodes(s, t, Global);
    case PGrant(shard) => GrantFrame(s, t, shard); GrantNodes(s, t, shard, Global);
    case PRelease(n) => ReleaseFrame(s, t, n); ReleaseNodes(s, t, n, Global);
    case _ => PrunerReads(s, t, p);
  }

  lemma PrunerLists(s: State, t: nat, p: PrunerAction)
    requires t in s.pruners && PrunerEnabled(s, t, p)
    ensures var u := PrunerStep(s, t, p);
            && u.disk.scores.Keys <= s.disk.scores.Keys && t in u.pruners
            && (u.pruners[t].phase == Sweep ==>
                  if p.PGenerations? then u.pruners[t].listed == s.disk.scores.Keys
                  else s.pruners[t].phase == Sweep && u.pruners[t].listed == s.pruners[t].listed)
  {
    hide Fence, Confirm, Grant, Release, HeldBy;
    if !(p.PActive? || p.PLeases? || p.PGenerations? || p.PManifest? || p.PDelete?) { SameCollection(s, t, p); PrunerFrame(s, t, p); }
  }

  lemma {:induction false} RunListed(r: seq<State>, acts: seq<Action>, i: nat)
    requires Trace(r, acts) && i <= |acts| <= |r|
    ensures ListedOk(r[i])
  {
    hide Enabled, Apply, Trace, Inv, ListedOk;
    if i == 0 {
      StartListed(r, acts);
    } else {
      RunListed(r, acts, i - 1);
      TraceStep(r, acts, i - 1);
      TraceInv(r, acts, i - 1);
      ListedStep(r[i - 1], acts[i - 1]);
    }
  }

  lemma StartListed(r: seq<State>, acts: seq<Action>)
    requires Trace(r, acts)
    ensures ListedOk(r[0])
  {
  }

  // ----- sweeping a namespace -----

  /** The pruner has read everything. */
  predicate AllRead(s: State, t: nat) { t in s.pruners && s.pruners[t].phase == Sweep && s.pruners[t].toRead == {} }

  /** From then on its collection is fixed. */
  lemma CollectionStays(s: State, a: Action, t: nat)
    requires Inv(s) && Enabled(s, a) && AllRead(s, t)
    ensures var u := Apply(s, a); AllRead(u, t) && SameCollected(s.pruners[t], u.pruners[t])
  {
    hide Inv, ReaderStep, PrunerStep, WriterStep, InstanceStep, Maintain, WriterEnabled, InstanceEnabled, At, OnlyAt;
    match a
    case Tick(_) =>
    case ReaderAct(x, r) => ReaderFrame(s, x, r);
    case WriterAct(x, w) => WriterFrame(s, x, w);
    case StartPrune => PrunerFacts(s, t); MaintainedKey(s);
    case PrunerAct(u, p) =>
      OnlyThisPruner(s, u, p);
      Others(s.pruners, PrunerStep(s, u, p).pruners, u);
      if u == t { SameCollection(s, t, p); }
    case InstanceAct(i, v) => InstanceFrame(s, i, v);
  }

  /** One step while the pruner holds the namespace: nothing is added there, and only its
      own deletions remove anything, never what is wanted. */
  lemma SweepStep(s: State, a: Action, t: nat, ns: Ns, k: Key)
    requires Inv(s) && AllTraced(s) && Enabled(s, a) && HeldBy(s.time, s.nodes, ns, t) && AllRead(s, t) && NsOf(k) == ns
    ensures k in Apply(s, a).disk.store ==> k in s.disk.store
    ensures k in s.disk.store && k !in Apply(s, a).disk.store ==> k in s.pruners[t].dead
    ensures a.PrunerAct? && a.t == t && a.p.PDelete? && k in a.p.batch ==> k !in Apply(s, a).disk.store
  {
    hide Inv, ReaderStep, WriterStep, InstanceStep, Maintain, WriterEnabled, InstanceEnabled, At, AllTraced, Locked;
    if k in s.disk.store && k !in Apply(s, a).disk.store { DeletedUnderBothTokens(s, a, k); }
    match a
    case Tick(_) =>
    case ReaderAct(x, r) => ReaderFrame(s, x, r);
    case WriterAct(x, w) => NothingWritten(s, x, w, ns);
    case StartPrune => MaintainFrame(s);
    case PrunerAct(u, p) => PrunerDeletes(s, u, p, k);
    case InstanceAct(i, v) => InstanceFrame(s, i, v);
  }

  lemma PrunerDeletes(s: State, t: nat, p: PrunerAction, k: Key)
    requires t in s.pruners && PrunerEnabled(s, t, p)
    ensures k in PrunerStep(s, t, p).disk.store ==> k in s.disk.store
    ensures p.PDelete? && k in p.batch && HeldBy(s.time, s.nodes, NsOf(k), t) ==> k !in PrunerStep(s, t, p).disk.store
  {
    hide HeldBy;
    if !p.PDelete? { PrunerFrame(s, t, p); }
  }

  /** What the pruner does to a record of `ns` from its listing at `l` up to `x`. */
  lemma {:induction false} SweptSoFar(r: seq<State>, acts: seq<Action>, l: nat, x: nat, t: nat, ns: Ns, k: Key)
    requires Trace(r, acts) && l < x <= |acts| <= |r| && acts[l] == PrunerAct(t, PList(ns)) && NsOf(k) == ns
    requires forall y {:trigger r[y]} :: l <= y < x ==> HeldBy(r[y].time, r[y].nodes, ns, t)
    ensures AllRead(r[l], t) && AllRead(r[x], t) && SameCollected(r[l].pruners[t], r[x].pruners[t])
    ensures k in r[x].disk.store ==> k in r[l].disk.store
    ensures Wanted(r[l].docs, r[l].pruners[t].keep, k) && k in r[l].disk.store ==> k in r[x].disk.store
    ensures (exists y :: l < y < x && Deletes(acts[y], t, k)) ==> k !in r[x].disk.store
    decreases x - l
  {
    hide Enabled, Apply, Trace, Inv, AllTraced, HeldBy, Wanted, Covers;
    var y := x - 1;
    TraceStep(r, acts, l);
    ListsSweeping(r[l], t, ns);
    TraceStep(r, acts, y);
    TraceInv(r, acts, y);
    RunTraced(r, acts, y);
    if y > l { SweptSoFar(r, acts, l, y, t, ns, k); }
    CollectionStays(r[y], acts[y], t);
    SweepStep(r[y], acts[y], t, ns, k);
    TraceInv(r, acts, l);
    RunTraced(r, acts, l);
    ReferencesAreExact(r[l], t, k);
    if k in r[y].pruners[t].dead { DeadIsUnwanted(r[y], t, k); }
  }

  predicate Deletes(a: Action, t: nat, k: Key) { a.PrunerAct? && a.t == t && a.p.PDelete? && k in a.p.batch }

  lemma ListsSweeping(s: State, t: nat, ns: Ns)
    requires Enabled(s, PrunerAct(t, PList(ns)))
    ensures Sweeping(s, t) && AllRead(s, t)
  {
  }

  lemma DeadIsUnwanted(s: State, t: nat, k: Key)
    requires Inv(s) && t in s.pruners && k in s.pruners[t].dead
    ensures k !in s.pruners[t].refs && (k.GenKey? ==> k.gen !in s.pruners[t].keep)
  {
    hide Inv;
    PrunerFacts(s, t);
  }

  /** The list of dead records of a namespace is exact: of what is stored there, precisely
      the unwanted records are on it. */
  lemma ListIsExact(s: State, t: nat, ns: Ns, k: Key)
    requires Inv(s) && AllTraced(s) && ListedOk(s) && Enabled(s, PrunerAct(t, PList(ns))) && HeldBy(s.time, s.nodes, ns, t)
    requires NsOf(k) == ns && k in s.disk.store
    ensures var u := Apply(s, PrunerAct(t, PList(ns)));
            t in u.pruners && (k in u.pruners[t].dead <==> !Wanted(s.docs, s.pruners[t].keep, k))
  {
    hide Inv, AllTraced, Wanted, HeldBy, ListDead;
    StoredIsRegistered(s, k);
    ListedDead(s, t, ns, k);
    ReferencesAreExact(s, t, k);
    if k in s.pruners[t].dead { DeadIsUnwanted(s, t, k); }
    if k.GenKey? { HolderListed(s, t); }
  }

  lemma ListedDead(s: State, t: nat, ns: Ns, k: Key)
    requires t in s.pruners && NsOf(k) == ns && forall q :: q in s.disk.registry ==> !q.GenKey?
    ensures var p, u := s.pruners[t], ListDead(s, t, ns);
            t in u.pruners && (k in u.pruners[t].dead <==> k in p.dead || if k.GenKey? then k.gen in p.listed && k.gen !in p.keep else k in s.disk.registry && k !in p.refs)
  {
    assert k.GenKey? ==> k == GenKey(k.gen);
  }

  lemma StoredIsRegistered(s: State, k: Key)
    requires Inv(s) && k in s.disk.store
    ensures if k.GenKey? then k.gen in s.disk.scores else k in s.disk.registry
    ensures forall q :: q in s.disk.registry ==> !q.GenKey?
  {
    hide Contents, DocsOk, Protected, Exclusive, WritersOk, StagedKept, Chain, LeasesOk, PrunersOk, HolderOk, ShardHolds, Fences, InstancesOk;
  }

  lemma HolderListed(s: State, t: nat)
    requires ListedOk(s) && HeldBy(s.time, s.nodes, Global, t) && AllRead(s, t)
    ensures s.disk.scores.Keys <= s.pruners[t].listed
  {
    hide At;
  }

  /** Once a pruner that has held a namespace since listing it has deleted everything it
      listed there, the namespace holds exactly what was stored at the listing and is
      reached by a kept generation. */
  lemma SweepLeavesExactlyTheWanted(r: seq<State>, acts: seq<Action>, l: nat, e: nat, t: nat, ns: Ns, k: Key)
    requires Trace(r, acts) && l < e <= |acts| && |r| == |acts| + 1 && acts[l] == PrunerAct(t, PList(ns)) && NsOf(k) == ns
    requires forall x {:trigger r[x]} :: l <= x < e ==> HeldBy(r[x].time, r[x].nodes, ns, t)
    requires t in r[l + 1].pruners
    requires forall q :: q in r[l + 1].pruners[t].dead && NsOf(q) == ns ==> exists x :: l < x < e && Deletes(acts[x], t, q)
    ensures t in r[l].pruners
    ensures k in r[e].disk.store <==> k in r[l].disk.store && Wanted(r[l].docs, r[l].pruners[t].keep, k)
  {
    hide Trace, Inv, AllTraced, ListedOk, Wanted, HeldBy, Deletes;
    SweptSoFar(r, acts, l, e, t, ns, k);
    if k in r[l].disk.store {
      TraceStep(r, acts, l);
      TraceInv(r, acts, l);
      RunTraced(r, acts, l);
      RunListed(r, acts, l);
      ListIsExact(r[l], t, ns, k);
    }
  }

  // ----- which generations are kept -----

  /** The generations of reader leases that were good for longer than `floor` seconds. */
  ghost predicate LeasedPast(leases: Leases, floor: int, g: nat) {
    exists id :: id in leases && leases[id].gen == g && leases[id].until > floor * 1000
  }

  /** While it holds the global key, a pruner in its first phases has nothing to fear:
      nothing is committed, registered or deleted. */
  lemma QuietStep(s: State, a: Action, t: nat)
    requires Inv(s) && Enabled(s, a) && HeldBy(s.time, s.nodes, Global, t) && t in s.pruners
    ensures Apply(s, a).active == s.active
    ensures s.pruners[t].phase != Sweep ==> Apply(s, a).disk.scores == s.disk.scores
  {
    hide Inv, ReaderStep, PrunerStep, WriterStep, InstanceStep, Maintain, WriterEnabled, InstanceEnabled, At, Locked;
    match a
    case Tick(_) =>
    case ReaderAct(x, r) => ReaderFrame(s, x, r);
    case WriterAct(x, w) => NothingWritten(s, x, w, Global);
    case StartPrune => MaintainFrame(s);
    case PrunerAct(u, p) => PrunerQuiet(s, u, p, t);
    case InstanceAct(i, v) => InstanceFrame(s, i, v);
  }

  lemma PrunerQuiet(s: State, u: nat, p: PrunerAction, t: nat)
    requires Inv(s) && u in s.pruners && PrunerEnabled(s, u, p) && HeldBy(s.time, s.nodes, Global, t) && t in s.pruners
    ensures PrunerStep(s, u, p).active == s.active
    ensures s.pruners[t].phase != Sweep ==> PrunerStep(s, u, p).disk.scores == s.disk.scores
  {
    hide Inv, PrunerStep, HeldBy;
    PrunerFrame(s, u, p);
    if p.PDelete? { DeleteQuiet(s, u, p, t); }
  }

  lemma DeleteQuiet(s: State, u: nat, p: PrunerAction, t: nat)
    requires Inv(s) && u in s.pruners && p.PDelete? && PrunerEnabled(s, u, p) && HeldBy(s.time, s.nodes, Global, t)
    ensures u == t || PrunerStep(s, u, p).disk == s.disk
  {
    hide Inv, At;
    if HeldBy(s.time, s.nodes, p.ns, u) { DeleteNeedsGlobalToken(s, u, p.ns); }
  }

  /** What the pruner knows about the generations to keep, `m` being the moment when it
      read the leases, if it has. */
  ghost predicate KeepsRight(r: seq<State>, acts: seq<Action>, a: nat, x: nat, t: nat, m: nat)
    requires a < x <= |acts| < |r|
  {
    && t in r[x].pruners && r[x].active == r[a].active && r[x].pruners[t].floor == Clock(r[a].time, Global) / 1000
    && var p, floor := r[x].pruners[t], Clock(r[a].time, Global) / 1000;
       match p.phase
       case ReadActive => p.keep == {} && r[x].disk.scores == r[a].disk.scores
       case ReadLeases => p.keep == {r[a].active} && r[x].disk.scores == r[a].disk.scores
       case ReadGenerations =>
         && ReadAt(acts, a, x, t, m) && r[x].disk.scores == r[a].disk.scores
         && forall g :: g in p.keep <==> g == r[a].active || LeasedPast(r[m].leases, floor, g)
       case Sweep =>
         && ReadAt(acts, a, x, t, m)
         && forall g :: g in p.keep <==>
              g == r[a].active || LeasedPast(r[m].leases, floor, g) || (g in r[a].disk.scores && r[a].disk.scores[g] >= floor - 86400)
  }

  predicate ReadAt(acts: seq<Action>, a: nat, x: nat, t: nat, m: nat) { a < m < x <= |acts| && acts[m] == PrunerAct(t, PLeases) }

  lemma EntryStays(s: State, a: Action, t: nat)
    requires Inv(s) && Enabled(s, a) && t in s.pruners && !(a.PrunerAct? && a.t == t)
    ensures t in Apply(s, a).pruners && Apply(s, a).pruners[t] == s.pruners[t]
  {
    hide Inv, ReaderStep, PrunerStep, WriterStep, InstanceStep, Maintain, WriterEnabled, PrunerEnabled, InstanceEnabled, At, OnlyAt;
    match a
    case Tick(_) =>
    case ReaderAct(x, r) => ReaderFrame(s, x, r);
    case WriterAct(x, w) => WriterFrame(s, x, w);
    case StartPrune => PrunerFacts(s, t); MaintainedKey(s);
    case PrunerAct(u, p) => OnlyThisPruner(s, u, p); Others(s.pruners, PrunerStep(s, u, p).pruners, u);
    case InstanceAct(i, v) => InstanceFrame(s, i, v);
  }

  /** What a pruner's own step does to the generations to keep. */
  ghost predicate KeepMoves(s: State, p: PrunerAction, was: Pruner, q: Pruner) {
    q.floor == was.floor &&
    match p
    case PActive => was.phase == ReadActive && q.phase == ReadLeases && q.keep == {s.active}
    case PLeases =>
      was.phase == ReadLeases && q.phase == ReadGenerations && forall g :: g in q.keep <==> g in was.keep || LeasedPast(s.leases, was.floor, g)
    case PGenerations =>
      was.phase == ReadGenerations && q.phase == Sweep &&
      forall g :: g in q.keep <==> g in was.keep || (g in s.disk.scores && s.disk.scores[g] >= was.floor - 86400)
    case _ => q.phase == was.phase && q.keep == was.keep
  }

  lemma KeepStep(s: State, t: nat, p: PrunerAction)
    requires t in s.pruners && PrunerEnabled(s, t, p)
    ensures t in PrunerStep(s, t, p).pruners
    ensures KeepMoves(s, p, s.pruners[t], PrunerStep(s, t, p).pruners[t])
  {
    hide Fence, Confirm, Grant, Release, HeldBy, Delete;
    match p
    case PActive =>
    case PLeases => LeasesKept(s, t);
    case PGenerations =>
    case PManifest(k) =>
    case _ => SameCollection(s, t, p);
  }

  lemma LeasesKept(s: State, t: nat)
    requires t in s.pruners
    ensures var q, was := KeepLeased(s, t).pruners[t], s.pruners[t];
            q.floor == was.floor && q.phase == ReadGenerations && forall g :: g in q.keep <==> g in was.keep || LeasedPast(s.leases, was.floor, g)
  {
  }

  lemma {:induction false} KeepSoFar(r: seq<State>, acts: seq<Action>, a: nat, x: nat, t: nat) returns (m: nat)
    requires Trace(r, acts) && a < x <= |acts| && |r| == |acts| + 1 && acts[a] == StartPrune
    requires t == At(r[a].nodes, Global).fence + 1 && t in r[a + 1].pruners
    requires forall y {:trigger r[y]} :: a < y < x ==> HeldBy(r[y].time, r[y].nodes, Global, t)
    ensures KeepsRight(r, acts, a, x, t, m)
    decreases x - a
  {
    hide Enabled, Apply, Trace, Inv, HeldBy, At, LeasedPast;
    var y := x - 1;
    TraceStep(r, acts, y);
    TraceInv(r, acts, y);
    m := 0;
    if y == a {
      StartedPruner(r[a], t);
    } else {
      m := KeepSoFar(r, acts, a, y, t);
      QuietStep(r[y], acts[y], t);
      if acts[y].PrunerAct? && acts[y].t == t {
        if acts[y].p.PLeases? { m := y; }
        OwnStep(r[y], acts[y], t);
      } else {
        EntryStays(r[y], acts[y], t);
      }
    }
  }

  lemma OwnStep(s: State, a: Action, t: nat)
    requires Enabled(s, a) && a.PrunerAct? && a.t == t
    ensures t in s.pruners && PrunerEnabled(s, t, a.p) && Apply(s, a) == PrunerStep(s, t, a.p)
    ensures t in PrunerStep(s, t, a.p).pruners
    ensures KeepMoves(s, a.p, s.pruners[t], PrunerStep(s, t, a.p).pruners[t])
  {
    hide PrunerStep, PrunerEnabled, LeasedPast, KeepMoves;
    KeepStep(s, t, a.p);
  }

  lemma StartedPruner(s: State, t: nat)
    requires Inv(s) && Enabled(s, StartPrune) && t == At(s.nodes, Global).fence + 1 && t in Apply(s, StartPrune).pruners
    ensures var u := Apply(s, StartPrune);
            && u.active == s.active && u.disk == s.disk
            && u.pruners[t].floor == Clock(s.time, Global) / 1000 && u.pruners[t].phase == ReadActive && u.pruners[t].keep == {}
  {
    hide Maintain, Inv, Clock;
    MaintainFrame(s);
    MaintainedKey(s);
    NewPrunerId(s);
  }

  /** A pruner that has held the global key since it started keeps exactly the active
      generation, those of reader leases good beyond the second in which it started, and
      those registered within 24 hours before that second. */
  lemma KeepsExactly(r: seq<State>, acts: seq<Action>, a: nat, e: nat, t: nat) returns (m: nat)
    requires Trace(r, acts) && a < e <= |acts| && |r| == |acts| + 1 && acts[a] == StartPrune
    requires t == At(r[a].nodes, Global).fence + 1 && t in r[a + 1].pruners
    requires forall x {:trigger r[x]} :: a < x < e ==> HeldBy(r[x].time, r[x].nodes, Global, t)
    requires t in r[e].pruners ==> r[e].pruners[t].phase == Sweep
    ensures a < m < e && acts[m] == PrunerAct(t, PLeases) && t in r[e].pruners && r[e].active == r[a].active
    ensures forall g :: g in r[e].pruners[t].keep <==>
              || g == r[a].active
              || (exists id :: id in r[m].leases && r[m].leases[id].gen == g && r[m].leases[id].until > Clock(r[a].time, Global) / 1000 * 1000)
              || (g in r[a].disk.scores && r[a].disk.scores[g] >= Clock(r[a].time, Global) / 1000 - 86400)
  {
    hide Trace, HeldBy, Clock;
    m := KeepSoFar(r, acts, a, e, t);
  }

  /** From start to sweep: when a pruner that has held the global key throughout has
      deleted what it listed there, a generation is still stored if and only if it was and
      it is the active one, leased, or at most 24 hours old. */
  lemma PruneLeavesExactlyTheKept(r: seq<State>, acts: seq<Action>, a: nat, l: nat, e: nat, t: nat, g: nat) returns (m: nat)
    requires Trace(r, acts) && a < l < e <= |acts| && |r| == |acts| + 1 && acts[a] == StartPrune && acts[l] == PrunerAct(t, PList(Global))
    requires t == At(r[a].nodes, Global).fence + 1 && t in r[a + 1].pruners
    requires forall x {:trigger r[x]} :: a < x < e ==> HeldBy(r[x].time, r[x].nodes, Global, t)
    requires t in r[l + 1].pruners
    requires forall q :: q in r[l + 1].pruners[t].dead && NsOf(q) == Global ==> exists x :: l < x < e && Deletes(acts[x], t, q)
    ensures a < m < l && acts[m] == PrunerAct(t, PLeases)
    ensures GenKey(g) in r[e].disk.store <==>
              && GenKey(g) in r[l].disk.store
              && (|| g == r[a].active
                  || (exists id :: id in r[m].leases && r[m].leases[id].gen == g && r[m].leases[id].until > Clock(r[a].time, Global) / 1000 * 1000)
                  || (g in r[a].disk.scores && r[a].disk.scores[g] >= Clock(r[a].time, Global) / 1000 - 86400))
  {
    hide Trace, HeldBy, Clock, Inv, AllTraced, Wanted, Deletes, At;
    TraceStep(r, acts, l);
    ListsSweeping(r[l], t, Global);
    m := KeepsExactly(r, acts, a, l, t);
    SweepLeavesExactlyTheWanted(r, acts, l, e, t, Global, GenKey(g));
    TraceInv(r, acts, l);
    RunTraced(r, acts, l);
    ReferencesAreExact(r[l], t, GenKey(g));
  }
}
