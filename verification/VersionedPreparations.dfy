/** Whether an abandoned preparation can still register data in a shard after global
    maintenance has begun (pkg/acor/versioned_prune.go:111-114).

    It can, and this module says exactly when.  While an operation leaves its writer lease
    to run out, a shard is safe from it if and only if the shard's clock is not behind the
    global one.  An operation that closes its lease with a mirror still on the way defeats
    any clocks. */
module VersionedPreparations {
  import opened VersionedStore
  import opened VersionedInvariant
  import opened VersionedRuns

  /** Staging `k` for operation `id` would register it in a shard although global
      maintenance is held. */
  ghost predicate Registers(s: State, id: nat, k: Key) {
    && NsOf(k).Shard? && Locked(s.time, s.nodes, Global)
    && Enabled(s, WriterAct(id, WStage(k)))
    && k !in s.disk.registry && k in Stage(s, id, k).disk.registry
  }

  // ----- leases that run out -----

  /** The action does not take time away from a valid writer lease of `id`. */
  predicate Lasting(s: State, a: Action, id: nat) {
    a.WriterAct? && a.id == id && Writing(s.time, s.nodes, Global, id) ==>
      && (a.w.WClose? ==> a.w.ns != Global)
      && (a.w.WRenew? ==> At(s.nodes, Global).writers[id] <= Clock(s.time, Global) + a.w.duration)
  }

  ghost predicate LastingAt(r: seq<State>, i: nat, id: nat)
    requires i + 1 < |r|
  {
    exists a :: Enabled(r[i], a) && r[i + 1] == Apply(r[i], a) && Lasting(r[i], a, id)
  }

  /** A run in which the lease of `id` is never closed or shortened before it runs out;
      other operations may do as they please. */
  ghost predicate LastingRun(r: seq<State>, id: nat) {
    r != [] && Initial(r[0]) && forall i {:trigger LastingAt(r, i, id)} :: 0 <= i < |r| - 1 ==> LastingAt(r, i, id)
  }

  lemma LastingIsRun(r: seq<State>, id: nat)
    requires LastingRun(r, id)
    ensures Run(r)
  {
    hide Enabled, Apply, Initial;
    forall i | 0 <= i < |r| - 1 ensures StepAt(r, i) { assert LastingAt(r, i, id); }
  }

  // ----- mirrored deadlines stay within the global lease -----

  /** The deadline has passed on the global clock, or the global lease lasts as long. */
  predicate Covered(time: Time, nodes: Nodes, id: nat, until: int) {
    until <= Clock(time, Global) || (id in At(nodes, Global).writers && until <= At(nodes, Global).writers[id])
  }

  ghost predicate DeadlinesCovered(s: State, id: nat) {
    id in s.writers ==> forall d :: d in s.writers[id].deadlines ==> Covered(s.time, s.nodes, id, d.until)
  }

  ghost predicate MirrorsCovered(s: State, id: nat) {
    forall n :: id in At(s.nodes, Shard(n)).writers ==> Covered(s.time, s.nodes, id, At(s.nodes, Shard(n)).writers[id])
  }

  ghost predicate AllCovered(s: State, id: nat) { DeadlinesCovered(s, id) && MirrorsCovered(s, id) }

  /** Time passes, and the global lease of `id` only runs out or grows. */
  predicate LeaseLasts(s: State, t: State, id: nat) {
    && Clock(s.time, Global) <= Clock(t.time, Global)
    && (id in At(s.nodes, Global).writers ==>
          || At(s.nodes, Global).writers[id] <= Clock(t.time, Global)
          || (id in At(t.nodes, Global).writers && At(s.nodes, Global).writers[id] <= At(t.nodes, Global).writers[id]))
  }

  lemma StaysCovered(s: State, t: State, id: nat, until: int)
    requires LeaseLasts(s, t, id) && Covered(s.time, s.nodes, id, until)
    ensures Covered(t.time, t.nodes, id, until)
  {
  }

  /** No mirror of `id` is new. */
  ghost predicate FewerMirrors(nodes: Nodes, later: Nodes, id: nat) {
    forall n :: id in At(later, Shard(n)).writers ==>
      id in At(nodes, Shard(n)).writers && At(later, Shard(n)).writers[id] == At(nodes, Shard(n)).writers[id]
  }

  predicate SameDeadlines(s: State, t: State, id: nat) {
    id in t.writers ==> if id in s.writers then t.writers[id].deadlines == s.writers[id].deadlines else t.writers[id].deadlines == {}
  }

  lemma KeptCovers(s: State, t: State, id: nat)
    requires AllCovered(s, id) && LeaseLasts(s, t, id) && FewerMirrors(s.nodes, t.nodes, id) && SameDeadlines(s, t, id)
    ensures AllCovered(t, id)
  {
    hide Covered, At, LeaseLasts;
    forall until | Covered(s.time, s.nodes, id, until) ensures Covered(t.time, t.nodes, id, until) {
      StaysCovered(s, t, id, until);
    }
  }

  lemma GlobalSet(nodes: Nodes, n: Node, id: nat)
    ensures At(nodes[Global := n], Global) == n && FewerMirrors(nodes, nodes[Global := n], id)
  {
  }

  // ----- every action -----

  lemma CoverStep(s: State, a: Action, id: nat)
    requires Inv(s) && Enabled(s, a) && Lasting(s, a, id) && AllCovered(s, id)
    ensures AllCovered(Apply(s, a), id)
  {
    hide Inv, ReaderStep, PrunerStep, WriterStep, InstanceStep, Maintain, WriterEnabled, PrunerEnabled, InstanceEnabled, AllCovered, Lasting;
    match a
    case Tick(millis) => KeptCovers(s, Apply(s, a), id);
    case ReaderAct(x, r) => ReaderFrame(s, x, r); SameCovers(s, ReaderStep(s, x, r), id);
    case WriterAct(x, w) => WriterCovers(s, x, w, id);
    case StartPrune => MaintainCovers(s, id);
    case PrunerAct(t, p) => PrunerCovers(s, t, p, id);
    case InstanceAct(i, v) => InstanceFrame(s, i, v); SameCovers(s, InstanceStep(s, i, v), id);
  }

  lemma SameCovers(s: State, t: State, id: nat)
    requires AllCovered(s, id) && t.time == s.time && t.nodes == s.nodes && SameDeadlines(s, t, id)
    ensures AllCovered(t, id)
  {
    hide AllCovered;
    KeptCovers(s, t, id);
  }

  lemma MaintainCovers(s: State, id: nat)
    requires AllCovered(s, id)
    ensures AllCovered(Maintain(s), id)
  {
    hide AllCovered, MaintainRefused, LiveLeases, NewPruner, At, FewerMirrors;
    MaintainFrame(s);
    GlobalSet(s.nodes, MaintainedNode(s), id);
    KeptCovers(s, Maintain(s), id);
  }

  /** The lock scripts leave the global leases alone and drop only expired mirrors. */
  lemma PrunerCovers(s: State, t: nat, p: PrunerAction, id: nat)
    requires t in s.pruners && AllCovered(s, id)
    ensures AllCovered(PrunerStep(s, t, p), id)
  {
    hide PrunerStep, AllCovered, At, FewerMirrors;
    PrunerFrame(s, t, p);
    PrunerNodes(s, t, p, id);
    KeptCovers(s, PrunerStep(s, t, p), id);
  }

  lemma PrunerNodes(s: State, t: nat, p: PrunerAction, id: nat)
    requires t in s.pruners
    ensures At(PrunerStep(s, t, p).nodes, Global).writers == At(s.nodes, Global).writers && FewerMirrors(s.nodes, PrunerStep(s, t, p).nodes, id)
  {
    hide Fence, Confirm, Grant, Release, KeepActive, KeepLeased, KeepRecent, ReadManifest, ListDead, Delete, Stop, At;
    var u := PrunerStep(s, t, p);
    match p
    case PFence => forall ns ensures At(u.nodes, ns).writers == At(s.nodes, ns).writers { FenceNodes(s, t, ns); }
    case PConfirm => ConfirmNodes(s, t); forall ns ensures At(u.nodes, ns).writers == At(s.nodes, ns).writers { FenceNodes(s, t, ns); }
    case PGrant(shard) => GrantMirrors(s, t, shard, id);
    case PRelease(n) => forall ns ensures At(u.nodes, ns).writers == At(s.nodes, ns).writers { ReleaseNodes(s, t, n, ns); }
    case _ => PrunerReads(s, t, p);
  }

  lemma GrantMirrors(s: State, t: nat, shard: nat, id: nat)
    requires t in s.pruners
    ensures At(Grant(s, t, shard).nodes, Global) == At(s.nodes, Global) && FewerMirrors(s.nodes, Grant(s, t, shard).nodes, id)
  {
    hide GrantRefused, Clock;
    forall n ensures At(Grant(s, t, shard).nodes, Shard(n)).writers == At(s.nodes, Shard(n)).writers
                  || At(Grant(s, t, shard).nodes, Shard(n)).writers == Unexpired(At(s.nodes, Shard(n)).writers, Clock(s.time, Shard(n))) {
    }
  }

  // ----- writers -----

  lemma WriterCovers(s: State, x: nat, w: WriterAction, id: nat)
    requires Inv(s) && WriterEnabled(s, x, w) && Lasting(s, WriterAct(x, w), id) && AllCovered(s, id)
    ensures AllCovered(WriterStep(s, x, w), id)
  {
    hide Inv, PlanOk, Stage, CommitWrite, OpenWriter, RenewWriter, CloseWriter, Mirror, ReadDeadline, AllCovered, Lasting;
    match w
    case WAcquire(expected, duration) => OpenCovers(s, x, expected, duration, id);
    case WRenew(duration) => RenewCovers(s, x, duration, id);
    case WClose(ns) => CloseCovers(s, x, ns, id);
    case WChange(more, toStage, result) => SameCovers(s, PlanChange(s, x, more, toStage, result), id);
    case WNothing => SameCovers(s, PlanNothing(s, x), id);
    case WDeadline(shard) => DeadlineCovers(s, x, shard, id);
    case WMirror(d) => MirrorCovers(s, x, d, id);
    case WStage(k) => StageSame(s, x, k, id); SameCovers(s, Stage(s, x, k), id);
    case WCommit => CommitFrame(s, x); SameCovers(s, CommitWrite(s, x), id);
  }

  lemma StageSame(s: State, x: nat, k: Key, id: nat)
    requires x in s.writers
    ensures Stage(s, x, k).time == s.time && Stage(s, x, k).nodes == s.nodes && SameDeadlines(s, Stage(s, x, k), id)
  {
    hide StageReplyOf, Put, Content, Clock;
  }

  /** A new lease has no deadlines out yet; an old entry under its id has run out. */
  lemma OpenCovers(s: State, x: nat, expected: nat, duration: nat, id: nat)
    requires Inv(s) && x !in s.used && AllCovered(s, id)
    ensures AllCovered(OpenWriter(s, x, expected, duration), id)
  {
    hide Inv, AllCovered, At, FewerMirrors, Locked;
    var t, n := OpenWriter(s, x, expected, duration), At(s.nodes, Global);
    if t != s {
      FreshNotWriting(s, x);
      GlobalSet(s.nodes, n.(writers := n.writers[x := Clock(s.time, Global) + duration]), id);
      KeptCovers(s, t, id);
    }
  }

  lemma FreshNotWriting(s: State, id: nat)
    requires Inv(s) && id !in s.used
    ensures !Writing(s.time, s.nodes, Global, id) && id !in s.writers
  {
    hide Contents, DocsOk, Registered, Protected, Exclusive, Chain, LeasesOk, PrunersOk, HolderOk, ShardHolds, Fences, InstancesOk, Sourced;
    assert id in s.writers ==> WriterOk(s.docs, s.log.committed, s.used, id, s.writers[id]);
  }

  lemma RenewCovers(s: State, x: nat, duration: nat, id: nat)
    requires AllCovered(s, id) && Lasting(s, WriterAct(x, WRenew(duration)), id)
    ensures AllCovered(RenewWriter(s, x, duration), id)
  {
    hide AllCovered, At, Clock, FewerMirrors;
    if Writing(s.time, s.nodes, Global, x) {
      var n := At(s.nodes, Global);
      GlobalSet(s.nodes, n.(writers := n.writers[x := Clock(s.time, Global) + duration]), id);
      KeptCovers(s, RenewWriter(s, x, duration), id);
    }
  }

  lemma CloseCovers(s: State, x: nat, ns: Ns, id: nat)
    requires AllCovered(s, id) && Lasting(s, WriterAct(x, WClose(ns)), id)
    ensures AllCovered(CloseWriter(s, x, ns), id)
  {
    hide AllCovered, At, Clock, FewerMirrors;
    ClosedNodes(s, x, ns, id);
    KeptCovers(s, CloseWriter(s, x, ns), id);
  }

  lemma ClosedNodes(s: State, x: nat, ns: Ns, id: nat)
    ensures At(CloseWriter(s, x, ns).nodes, Global).writers
         == if ns == Global then At(s.nodes, Global).writers - {x} else At(s.nodes, Global).writers
    ensures FewerMirrors(s.nodes, CloseWriter(s, x, ns).nodes, id)
  {
    forall other ensures At(CloseWriter(s, x, ns).nodes, other).writers
                      == if other == ns then At(s.nodes, other).writers - {x} else At(s.nodes, other).writers {
    }
  }

  lemma DeadlineCovers(s: State, x: nat, shard: nat, id: nat)
    requires AllCovered(s, id) && x in s.writers
    ensures AllCovered(ReadDeadline(s, x, shard), id)
  {
  }

  lemma MirrorCovers(s: State, x: nat, d: Deadline, id: nat)
    requires AllCovered(s, id) && x in s.writers && d in s.writers[x].deadlines
    ensures AllCovered(Mirror(s, x, d), id)
  {
    hide At, Clock, Locked;
    var t := Mirror(s, x, d);
    MirrorNodes(s, x, d);
    forall n | id in At(t.nodes, Shard(n)).writers ensures Covered(t.time, t.nodes, id, At(t.nodes, Shard(n)).writers[id]) {
      assert OneMirror(At(s.nodes, Shard(n)).writers, At(t.nodes, Shard(n)).writers, x, d.until);
    }
  }

  /** A mirror adds at most the one deadline. */
  lemma MirrorNodes(s: State, x: nat, d: Deadline)
    ensures Mirror(s, x, d).time == s.time && Mirror(s, x, d).writers == s.writers
    ensures At(Mirror(s, x, d).nodes, Global) == At(s.nodes, Global)
    ensures forall n :: OneMirror(At(s.nodes, Shard(n)).writers, At(Mirror(s, x, d).nodes, Shard(n)).writers, x, d.until)
  {
    hide Clock, Locked, OneMirror;
    forall n ensures OneMirror(At(s.nodes, Shard(n)).writers, At(Mirror(s, x, d).nodes, Shard(n)).writers, x, d.until) {
      MirrorNode(s, x, d, n);
    }
  }

  lemma MirrorNode(s: State, x: nat, d: Deadline, n: nat)
    ensures OneMirror(At(s.nodes, Shard(n)).writers, At(Mirror(s, x, d).nodes, Shard(n)).writers, x, d.until)
  {
    hide Clock, Locked;
  }

  predicate OneMirror(writers: map<nat, int>, later: map<nat, int>, x: nat, until: int) {
    later == writers || later == writers[x := until]
  }

  // ----- exactly when -----

  lemma {:induction false} LastingCovered(r: seq<State>, i: nat, id: nat)
    requires LastingRun(r, id) && i < |r|
    ensures AllCovered(r[i], id) && r[i].time.skew == r[0].time.skew
  {
    hide Enabled, Apply, Inv, Lasting, AllCovered;
    if i > 0 {
      LastingCovered(r, i - 1, id);
      LastingIsRun(r, id);
      RunKeeps(r, i - 1);
      assert LastingAt(r, i - 1, id);
      var a :| Enabled(r[i - 1], a) && r[i] == Apply(r[i - 1], a) && Lasting(r[i - 1], a, id);
      CoverStep(r[i - 1], a, id);
      SkewStays(r[i - 1], a);
    } else {
      InitialCovered(r[0], id);
    }
  }

  lemma InitialCovered(s: State, id: nat)
    requires Initial(s)
    ensures AllCovered(s, id)
  {
  }

  lemma SkewStays(s: State, a: Action)
    requires Enabled(s, a)
    ensures Apply(s, a).time.skew == s.time.skew
  {
    hide ReaderStep, PrunerStep, WriterStep, InstanceStep, WriterEnabled, PrunerEnabled, InstanceEnabled, MaintainedNode, LiveLeases;
    match a
    case Tick(_) =>
    case ReaderAct(x, r) => ReaderFrame(s, x, r);
    case WriterAct(x, w) => WriterTime(s, x, w);
    case StartPrune =>
    case PrunerAct(t, p) => PrunerFrame(s, t, p);
    case InstanceAct(i, v) => InstanceFrame(s, i, v);
  }

  lemma WriterTime(s: State, x: nat, w: WriterAction)
    requires WriterEnabled(s, x, w)
    ensures WriterStep(s, x, w).time == s.time
  {
    hide PlanOk, Locked, Writing, Put, Content, StageReplyOf, Decide, CommittedLog, CommittedDisk;
  }

  /** No stage script of an operation whose lease runs out succeeds during global
      maintenance in a shard whose clock is not behind the global one. */
  lemma NoLateRegistration(r: seq<State>, i: nat, id: nat, k: Key)
    requires LastingRun(r, id) && i < |r| && NsOf(k).Shard? && Clock(r[i].time, Global) <= Clock(r[i].time, NsOf(k))
    requires Locked(r[i].time, r[i].nodes, Global)
    ensures StageReplyOf(r[i], id, k) == LeaseExpired && !Registers(r[i], id, k)
  {
    hide LastingRun, Contents, DocsOk, Registered, Protected, WritersOk, StagedKept, Chain, LeasesOk, PrunersOk, HolderOk, ShardHolds, Fences, InstancesOk;
    LastingCovered(r, i, id);
    LastingIsRun(r, id);
    RunKeeps(r, i);
    var s, n := r[i], NsOf(k).n;
    if id in At(s.nodes, Shard(n)).writers {
      assert Covered(s.time, s.nodes, id, At(s.nodes, Shard(n)).writers[id]);
      assert Locked(s.time, s.nodes, Global) ==> !Writing(s.time, s.nodes, Global, id);
    }
  }

  // ----- registrations that do happen -----

  /** An empty collection in one namespace, on nodes with these clocks. */
  function NewCollection(skew: map<Ns, int>): State {
    var docs := map[GenKey(0) := RefDoc(1, {})];
    State(Time(0, skew), map[], docs, Disk(docs, map[0 := 0], {}), 0, map[], Log(map[], map[0 := 1], []), map[], map[], map[], {0})
  }

  function Fresh(n: nat): Key { ChunkKey(Shard(n), 0) }

  function Preparation(n: nat): Plan { Change({GenKey(1), Fresh(n)}, Receipt(0, 1, 0, 0)) }

  /** Operation 1 at work with this plan and these deadlines, its lease running until
      `until`. */
  function AtWork(skew: map<Ns, int>, until: int, docs: Docs, plan: Plan, deadlines: set<Deadline>): State {
    NewCollection(skew).(nodes := map[Global := Node(Free, 0, map[1 := until])], docs := docs,
                         writers := map[1 := Writer(0, plan, {}, deadlines)], used := {0, 1})
  }

  /** It has planned a chunk for shard `n` and read its deadline. */
  function Prepared(skew: map<Ns, int>, n: nat, until: int): State {
    AtWork(skew, until, map[GenKey(0) := RefDoc(1, {}), GenKey(1) := RefDoc(2, {})], Preparation(n), {Deadline(n, until, 0)})
  }

  lemma Extended(r: seq<State>, s: State, a: Action, id: nat) returns (q: seq<State>)
    requires LastingRun(r, id) && r != [] && r[|r| - 1] == s && Enabled(s, a) && Lasting(s, a, id)
    ensures LastingRun(q, id) && q != [] && q[0] == r[0] && q[|q| - 1] == Apply(s, a)
  {
    hide Enabled, Apply, Initial, Lasting;
    q := r + [Apply(s, a)];
    assert q[|r| - 1] == s && LastingAt(q, |r| - 1, id);
    forall i | 0 <= i < |q| - 1 ensures LastingAt(q, i, id) { if i < |r| - 1 { assert LastingAt(r, i, id) && q[i] == r[i] && q[i + 1] == r[i + 1]; } }
  }

  lemma ExtendedRun(r: seq<State>, s: State, a: Action) returns (q: seq<State>)
    requires Run(r) && r != [] && r[|r| - 1] == s && Enabled(s, a)
    ensures Run(q) && q != [] && q[0] == r[0] && q[|q| - 1] == Apply(s, a)
  {
    hide Enabled, Apply, Initial;
    q := r + [Apply(s, a)];
    assert q[|r| - 1] == s && StepAt(q, |r| - 1);
    forall i | 0 <= i < |q| - 1 ensures StepAt(q, i) { if i < |r| - 1 { assert StepAt(r, i) && q[i] == r[i] && q[i + 1] == r[i + 1]; } }
  }

  lemma NewCollectionRun(skew: map<Ns, int>)
    ensures LastingRun([NewCollection(skew)], 1)
  {
  }

  lemma OpenStep(skew: map<Ns, int>, duration: nat)
    ensures OpenWriter(NewCollection(skew), 1, 0, duration)
         == AtWork(skew, Clock(Time(0, skew), Global) + duration, map[GenKey(0) := RefDoc(1, {})], Unplanned, {})
  {
  }

  lemma PlanStep(skew: map<Ns, int>, until: int, n: nat)
    ensures var s := AtWork(skew, until, map[GenKey(0) := RefDoc(1, {})], Unplanned, {});
      PlanChange(s, 1, map[GenKey(1) := RefDoc(2, {})], Preparation(n).toStage, Preparation(n).result)
      == AtWork(skew, until, map[GenKey(0) := RefDoc(1, {}), GenKey(1) := RefDoc(2, {})], Preparation(n), {})
  {
  }

  lemma DeadlineStep(skew: map<Ns, int>, until: int, docs: Docs, plan: Plan, n: nat)
    requires Clock(Time(0, skew), Global) < until
    ensures ReadDeadline(AtWork(skew, until, docs, plan, {}), 1, n) == AtWork(skew, until, docs, plan, {Deadline(n, until, 0)})
  {
    assert {} + {Deadline(n, until, 0)} == {Deadline(n, until, 0)};
  }

  /** The lease, the plan and the deadline. */
  lemma PreparedRun(skew: map<Ns, int>, n: nat, duration: nat) returns (r: seq<State>)
    requires duration > 0
    ensures LastingRun(r, 1) && r != [] && r[0].time.skew == skew
    ensures r[|r| - 1] == Prepared(skew, n, Clock(Time(0, skew), Global) + duration)
  {
    hide LastingRun, PlanOk, OpenWriter, PlanChange, ReadDeadline, Clock, Locked, Writing;
    var s, p, until := NewCollection(skew), Preparation(n), Clock(Time(0, skew), Global) + duration;
    var none, more := map[GenKey(0) := RefDoc(1, {})], map[GenKey(1) := RefDoc(2, {})];
    var s1 := AtWork(skew, until, none, Unplanned, {});
    var s2 := AtWork(skew, until, map[GenKey(0) := RefDoc(1, {}), GenKey(1) := RefDoc(2, {})], p, {});
    NewCollectionRun(skew);
    OpenStep(skew, duration);
    r := Extended([s], s, WriterAct(1, WAcquire(0, duration)), 1);
    PreparationOk(none, n);
    PlanStep(skew, until, n);
    r := Extended(r, s1, WriterAct(1, WChange(more, p.toStage, p.result)), 1);
    DeadlineStep(skew, until, s2.docs, p, n);
    r := Extended(r, s2, WriterAct(1, WDeadline(n)), 1);
  }

  lemma PreparationOk(docs: Docs, n: nat)
    requires docs == map[GenKey(0) := RefDoc(1, {})]
    ensures PlanOk(docs, 1, 0, map[GenKey(1) := RefDoc(2, {})], Preparation(n).toStage)
  {
  }

  /** With a shard clock behind the global one, a mirror outlives the lease it mirrors. */
  lemma SlowShardRegisters(skew: map<Ns, int>, n: nat) returns (r: seq<State>)
    requires Clock(Time(0, skew), Shard(n)) < Clock(Time(0, skew), Global)
    ensures LastingRun(r, 1) && r != [] && r[0].time.skew == skew && Registers(r[|r| - 1], 1, Fresh(n))
  {
    hide LastingRun, Maintain, Mirror, Registers, Clock;
    var until := Clock(Time(0, skew), Global) + 1;
    r := PreparedRun(skew, n, 1);
    var s, d := Prepared(skew, n, until), Deadline(n, until, 0);
    r := Extended(r, s, WriterAct(1, WMirror(d)), 1);
    MirrorNodes(s, 1, d);
    r := Extended(r, Mirror(s, 1, d), Tick(1), 1);
    r := Extended(r, Lapsed(skew, n), StartPrune, 1);
    SlowShard(skew, n);
  }

  function Lapsed(skew: map<Ns, int>, n: nat): State {
    var until := Clock(Time(0, skew), Global) + 1;
    Mirror(Prepared(skew, n, until), 1, Deadline(n, until, 0)).(time := Time(1, skew))
  }

  lemma SlowShard(skew: map<Ns, int>, n: nat)
    requires Clock(Time(0, skew), Shard(n)) < Clock(Time(0, skew), Global)
    ensures Registers(Maintain(Lapsed(skew, n)), 1, Fresh(n))
  {
  }

  /** Whatever the clocks, a mirror sent before its lease was closed can arrive later. */
  lemma ClosedLeaseRegisters(skew: map<Ns, int>, n: nat) returns (r: seq<State>)
    ensures Run(r) && r != [] && r[0].time.skew == skew && Registers(r[|r| - 1], 1, Fresh(n))
  {
    hide LastingRun, Run, Maintain, Mirror, Registers, CloseWriter, Clock;
    var g, c := Clock(Time(0, skew), Global), Clock(Time(0, skew), Shard(n));
    var duration := if c < g then 1 else c - g + 1;
    r := PreparedRun(skew, n, duration);
    LastingIsRun(r, 1);
    var s, d := Prepared(skew, n, g + duration), Deadline(n, g + duration, 0);
    r := ExtendedRun(r, s, WriterAct(1, WClose(Global)));
    r := ExtendedRun(r, CloseWriter(s, 1, Global), StartPrune);
    ClosedLease(skew, n, g + duration);
    r := ExtendedRun(r, Maintain(CloseWriter(s, 1, Global)), WriterAct(1, WMirror(d)));
  }

  lemma ClosedLease(skew: map<Ns, int>, n: nat, until: int)
    requires Clock(Time(0, skew), Global) < until && Clock(Time(0, skew), Shard(n)) < until
    ensures var s := Maintain(CloseWriter(Prepared(skew, n, until), 1, Global));
      && Enabled(s, WriterAct(1, WMirror(Deadline(n, until, 0))))
      && Registers(Mirror(s, 1, Deadline(n, until, 0)), 1, Fresh(n))
  {
  }

  /** No expired preparation can register anything in shard `n` during global maintenance. */
  ghost predicate SafeFromExpired(skew: map<Ns, int>, n: nat) {
    forall r: seq<State>, i: nat, id: nat, k: Key {:trigger LastingRun(r, id), Registers(r[i], id, k)} ::
      LastingRun(r, id) && i < |r| && r[0].time.skew == skew && NsOf(k) == Shard(n) ==> !Registers(r[i], id, k)
  }

  /** The source's remark holds of a shard if and only if its clock is not behind. */
  lemma SafeIffNotBehind(skew: map<Ns, int>, n: nat)
    ensures SafeFromExpired(skew, n) <==>
              (if Global in skew then skew[Global] else 0) <= (if Shard(n) in skew then skew[Shard(n)] else 0)
  {
    hide LastingRun, Registers;
    if Clock(Time(0, skew), Global) <= Clock(Time(0, skew), Shard(n)) {
      forall r: seq<State>, i: nat, id: nat, k: Key
        | LastingRun(r, id) && i < |r| && r[0].time.skew == skew && NsOf(k) == Shard(n)
        ensures !Registers(r[i], id, k)
      {
        LastingCovered(r, i, id);
        if Locked(r[i].time, r[i].nodes, Global) { NoLateRegistration(r, i, id, k); } else { NotHeld(r[i], id, k); }
      }
    } else {
      var r := SlowShardRegisters(skew, n);
      assert Registers(r[|r| - 1], 1, Fresh(n));
    }
  }

  lemma NotHeld(s: State, id: nat, k: Key)
    ensures Registers(s, id, k) ==> Locked(s.time, s.nodes, Global)
  {
  }
}
