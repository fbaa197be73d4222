/** The versioned collection in Redis as a state machine: leases, fenced staging,
    compare-and-set commit, receipts and garbage collection over a global namespace
    and any number of shard namespaces (pkg/acor/versioned*.go).

    Every Lua script is one action.  Clients stall, retry and give up arbitrarily: a
    writer may run any of its scripts at any later time, in any order and any number
    of times; a pruner runs its scripts in order and only releases after giving up.
    Random ids are fresh; one write operation owns one lease id and its generation,
    operation and shard manifests are named after it. */
module VersionedStore {

  const MAINTENANCE_TTL: int := 30000
  const PRUNE_BATCH: nat := 64
  const RETENTION_SECONDS: int := 24 * 60 * 60
  const MILLIS: int := 1000

  // ----- stored data -----

  datatype Ns = Global | Shard(n: nat)

  /** Redis keys of immutable records.  Chunks are named by their hash, so a chunk's
      key fixes its content. */
  datatype Key =
    | GenKey(gen: nat)
    | ManifestKey(shard: nat, id: nat)
    | ChunkKey(ns: Ns, hash: nat)

  function NsOf(k: Key): Ns {
    match k
    case GenKey(_) => Global
    case ManifestKey(n, _) => Shard(n)
    case ChunkKey(ns, _) => ns
  }

  /** A generation refers to chunks (one namespace) or to shard manifests (sharded);
      a shard manifest refers to chunks of its shard. */
  datatype Doc = ChunkDoc(hash: nat) | RefDoc(sequence: nat, refs: set<Key>)

  /** Every document ever prepared, by key. */
  type Docs = map<Key, Doc>

  /** What a writer holding `docs` puts under `k`. */
  predicate Known(docs: Docs, k: Key) { k.ChunkKey? || (k in docs && docs[k].RefDoc?) }

  function Content(docs: Docs, k: Key): Doc {
    if k.ChunkKey? then ChunkDoc(k.hash) else if k in docs then docs[k] else RefDoc(0, {})
  }

  function Sequence(docs: Docs, g: nat): nat { if Known(docs, GenKey(g)) then docs[GenKey(g)].sequence else 0 }

  /** The records: contents, the score of each registered generation, and the other
      registries. */
  datatype Disk = Disk(store: map<Key, Doc>, scores: map<nat, int>, registry: set<Key>)

  // ----- time -----

  /** One global clock; each node's clock differs from it by a constant. */
  datatype Time = Time(now: nat, skew: map<Ns, int>)

  function Clock(time: Time, ns: Ns): int { time.now + if ns in time.skew then time.skew[ns] else 0 }

  // ----- locks and leases -----

  datatype Hold = Free | Held(token: nat, until: int)

  /** The maintenance key, fence and writer leases of one namespace. */
  datatype Node = Node(hold: Hold, fence: nat, writers: map<nat, int>)

  type Nodes = map<Ns, Node>

  function At(nodes: Nodes, ns: Ns): Node { if ns in nodes then nodes[ns] else Node(Free, 0, map[]) }

  /** The maintenance key exists. */
  predicate Locked(time: Time, nodes: Nodes, ns: Ns) {
    var h := At(nodes, ns).hold;
    h.Held? && Clock(time, ns) < h.until
  }

  predicate HeldBy(time: Time, nodes: Nodes, ns: Ns, token: nat) {
    Locked(time, nodes, ns) && At(nodes, ns).hold.token == token
  }

  /** The writer lease exists and has not run out on this node's clock. */
  predicate Writing(time: Time, nodes: Nodes, ns: Ns, id: nat) {
    id in At(nodes, ns).writers && Clock(time, ns) < At(nodes, ns).writers[id]
  }

  predicate AnyWriting(time: Time, nodes: Nodes, ns: Ns) {
    exists id :: id in At(nodes, ns).writers && Writing(time, nodes, ns, id)
  }

  datatype Lease = Lease(gen: nat, until: int)

  type Leases = map<nat, Lease>

  predicate Reading(time: Time, leases: Leases, id: nat) {
    id in leases && Clock(time, Global) < leases[id].until
  }

  // ----- clients -----

  datatype Receipt = Receipt(previous: nat, version: nat, added: nat, removed: nat)

  datatype Plan = Unplanned | Unchanged | Change(toStage: set<Key>, result: Receipt)

  /** A deadline and fence read from the global namespace for mirroring to a shard. */
  datatype Deadline = Deadline(shard: nat, until: int, fence: nat)

  datatype Writer = Writer(expected: nat, plan: Plan, staged: set<Key>, deadlines: set<Deadline>)

  datatype Phase = ReadActive | ReadLeases | ReadGenerations | Sweep

  /** One Prune call, named by its fencing token.  `between` is the shard granted but
      not yet confirmed by a global renewal. */
  datatype Pruner = Pruner(floor: int, phase: Phase, keep: set<nat>, listed: set<nat>, toRead: set<Key>,
                           refs: set<Key>, dead: set<Key>, between: set<nat>, stopped: bool)

  datatype Slot = Empty | Gen(g: nat)

  /** One process: the generation it serves and the one it is building. */
  datatype Instance = Instance(serving: Slot, pinned: Slot)

  datatype Commit = Commit(previous: nat, version: nat)

  datatype Log = Log(receipts: map<nat, Receipt>, committed: map<nat, nat>, commits: seq<Commit>)

  datatype State = State(
    time: Time, nodes: Nodes, docs: Docs, disk: Disk, active: nat, leases: Leases, log: Log,
    writers: map<nat, Writer>, pruners: map<nat, Pruner>, instances: map<nat, Instance>, used: set<nat>)

  // ----- reader and writer leases -----

  /** Snapshot: pins the active generation (versioned_snapshot.go:33-69). */
  function OpenLease(s: State, id: nat, duration: nat): State {
    if Locked(s.time, s.nodes, Global) then s
    else s.(leases := s.leases[id := Lease(s.active, Clock(s.time, Global) + duration)], used := s.used + {id})
  }

  /** Only a lease that has not run out is extended. */
  function RenewLease(s: State, id: nat, duration: nat): State {
    if !Reading(s.time, s.leases, id) then s
    else s.(leases := s.leases[id := s.leases[id].(until := Clock(s.time, Global) + duration)])
  }

  function CloseLease(s: State, id: nat): State { s.(leases := s.leases - {id}) }

  function SetNode(s: State, ns: Ns, n: Node): State { s.(nodes := s.nodes[ns := n]) }

  function OpenWriter(s: State, id: nat, expected: nat, duration: nat): State {
    if Locked(s.time, s.nodes, Global) || s.active != expected then s
    else
      var n := At(s.nodes, Global);
      SetNode(s, Global, n.(writers := n.writers[id := Clock(s.time, Global) + duration]))
        .(used := s.used + {id}, writers := s.writers[id := Writer(expected, Unplanned, {}, {})])
  }

  function RenewWriter(s: State, id: nat, duration: nat): State {
    if !Writing(s.time, s.nodes, Global, id) then s
    else
      var n := At(s.nodes, Global);
      SetNode(s, Global, n.(writers := n.writers[id := Clock(s.time, Global) + duration]))
  }

  /** Removes the lease from the global set or from a mirror. */
  function CloseWriter(s: State, id: nat, ns: Ns): State {
    var n := At(s.nodes, ns);
    SetNode(s, ns, n.(writers := n.writers - {id}))
  }

  // ----- preparing a generation -----

  /** Everything the new generation reaches is either prepared now or reached by the
      expected generation. */
  ghost predicate PlanOk(docs: Docs, id: nat, expected: nat, more: Docs, toStage: set<Key>) {
    && Known(docs, GenKey(expected))
    && GenKey(id) in more && (forall k :: k in more ==> k in toStage && NewDoc(docs, id, expected, more, toStage, k))
    && more[GenKey(id)].sequence == docs[GenKey(expected)].sequence + 1
    && (forall k :: k in toStage ==> k.ChunkKey? || k in more)
  }

  ghost predicate NewDoc(docs: Docs, id: nat, expected: nat, more: Docs, toStage: set<Key>, k: Key)
    requires k in more && Known(docs, GenKey(expected))
  {
    && more[k].RefDoc? && (k == GenKey(id) || (k.ManifestKey? && k.id == id))
    && (k.GenKey? ==> forall r :: r in more[k].refs ==> !r.GenKey? && (r in toStage || r in docs[GenKey(expected)].refs))
    && (k.ManifestKey? ==> forall r :: r in more[k].refs ==> r.ChunkKey? && (r in toStage || Reaches(docs, expected, r)))
  }

  /** `k` is one of the records that a generation needs. */
  ghost predicate Reaches(docs: Docs, g: nat, k: Key) {
    Known(docs, GenKey(g)) &&
    (k == GenKey(g) || k in docs[GenKey(g)].refs || exists m :: ViaManifest(docs, g, m, k))
  }

  ghost predicate ViaManifest(docs: Docs, g: nat, m: Key, k: Key)
    requires Known(docs, GenKey(g))
  {
    m in docs[GenKey(g)].refs && m.ManifestKey? && Known(docs, m) && k in docs[m].refs
  }

  function PlanChange(s: State, id: nat, more: Docs, toStage: set<Key>, result: Receipt): State
    requires id in s.writers
  {
    s.(docs := s.docs + more, writers := s.writers[id := s.writers[id].(plan := Change(toStage, result))])
  }

  function PlanNothing(s: State, id: nat): State
    requires id in s.writers
  {
    s.(writers := s.writers[id := s.writers[id].(plan := Unchanged)])
  }

  /** First half of mirroring a writer lease to a shard (versioned_shards.go:281-299). */
  function ReadDeadline(s: State, id: nat, shard: nat): State
    requires id in s.writers
  {
    if Locked(s.time, s.nodes, Global) || !Writing(s.time, s.nodes, Global, id) then s
    else
      var n, w := At(s.nodes, Global), s.writers[id];
      s.(writers := s.writers[id := w.(deadlines := w.deadlines + {Deadline(shard, n.writers[id], n.fence)})])
  }

  /** Second half, possibly much later. */
  function Mirror(s: State, id: nat, d: Deadline): State {
    var ns := Shard(d.shard);
    var n := At(s.nodes, ns);
    if Locked(s.time, s.nodes, ns) || d.until <= Clock(s.time, ns) || n.fence > d.fence then s
    else SetNode(s, ns, n.(fence := d.fence, writers := n.writers[id := d.until]))
  }

  datatype StageReply = Staged | LeaseExpired | Corrupt

  function StageReplyOf(s: State, id: nat, k: Key): StageReply {
    if Locked(s.time, s.nodes, NsOf(k)) || !Writing(s.time, s.nodes, NsOf(k), id) then LeaseExpired
    else if k in s.disk.store && s.disk.store[k] != Content(s.docs, k) then Corrupt
    else Staged
  }

  /** Registers and creates one record (versioned_write.go:29-38). */
  function Stage(s: State, id: nat, k: Key): State
    requires id in s.writers
  {
    if StageReplyOf(s, id, k) != Staged then s
    else
      var w := s.writers[id];
      s.(disk := Put(s.disk, k, Content(s.docs, k), Clock(s.time, NsOf(k)) / MILLIS),
         writers := s.writers[id := w.(staged := w.staged + {k})])
  }

  function Put(d: Disk, k: Key, doc: Doc, seconds: int): Disk {
    var d1 := d.(store := if k in d.store then d.store else d.store[k := doc]);
    if k.GenKey? then d1.(scores := if k.gen in d.scores then d.scores else d.scores[k.gen := seconds])
    else d1.(registry := d.registry + {k})
  }

  // ----- committing -----

  datatype CommitReply = Done(receipt: Receipt) | InMaintenance | Expired | Conflict | Missing

  function Target(s: State, id: nat): nat
    requires id in s.writers
  {
    if s.writers[id].plan.Change? then id else s.writers[id].expected
  }

  function ResultOf(w: Writer): Receipt {
    if w.plan.Change? then w.plan.result else Receipt(w.expected, w.expected, 0, 0)
  }

  /** The script's checks, in its order (versioned_write.go:39-56). */
  function Decide(s: State, id: nat): CommitReply
    requires id in s.writers
  {
    if id in s.log.receipts then Done(s.log.receipts[id])
    else if Locked(s.time, s.nodes, Global) then InMaintenance
    else if !Writing(s.time, s.nodes, Global, id) then Expired
    else if s.active != s.writers[id].expected then Conflict
    else if GenKey(Target(s, id)) !in s.disk.store then Missing
    else Done(ResultOf(s.writers[id]))
  }

  /** The receipt; for a changed generation also its commit record. */
  function CommittedLog(s: State, id: nat): Log
    requires id in s.writers
  {
    var w, g := s.writers[id], Target(s, id);
    var log := s.log.(receipts := s.log.receipts[id := ResultOf(w)]);
    if g == w.expected then log
    else log.(committed := log.committed[g := Sequence(s.docs, g)], commits := log.commits + [Commit(w.expected, g)])
  }

  function CommittedDisk(s: State, id: nat): Disk
    requires id in s.writers
  {
    var g := Target(s, id);
    if g == s.writers[id].expected then s.disk
    else s.disk.(scores := s.disk.scores[g := Clock(s.time, Global) / MILLIS])
  }

  function CommitWrite(s: State, id: nat): State
    requires id in s.writers
  {
    if id in s.log.receipts || !Decide(s, id).Done? then s
    else s.(log := CommittedLog(s, id), active := Target(s, id), disk := CommittedDisk(s, id))
  }

  // ----- pruning -----

  function Unexpired(writers: map<nat, int>, clock: int): map<nat, int> {
    map id | id in writers && clock < writers[id] :: writers[id]
  }

  predicate MaintainRefused(s: State) { Locked(s.time, s.nodes, Global) || AnyWriting(s.time, s.nodes, Global) }

  function MaintainedNode(s: State): Node {
    var n, clock := At(s.nodes, Global), Clock(s.time, Global);
    var clean := n.(writers := Unexpired(n.writers, clock));
    if MaintainRefused(s) then clean else clean.(hold := Held(n.fence + 1, clock + MAINTENANCE_TTL), fence := n.fence + 1)
  }

  function LiveLeases(s: State): Leases {
    var clock := Clock(s.time, Global);
    map id | id in s.leases && clock < s.leases[id].until :: s.leases[id]
  }

  function NewPruner(clock: int): Pruner { Pruner(clock / MILLIS, ReadActive, {}, {}, {}, {}, {}, {}, false) }

  /** Starts maintenance unless it is under way or writers are at work
      (versioned_prune.go:39-46). */
  function Maintain(s: State): State {
    s.(nodes := s.nodes[Global := MaintainedNode(s)], leases := LiveLeases(s),
       pruners := if MaintainRefused(s) then s.pruners
                  else s.pruners[At(s.nodes, Global).fence + 1 := NewPruner(Clock(s.time, Global))])
  }

  function SetPruner(s: State, t: nat, p: Pruner): State { s.(pruners := s.pruners[t := p]) }

  function KeepActive(s: State, t: nat): State
    requires t in s.pruners
  {
    SetPruner(s, t, s.pruners[t].(phase := ReadLeases, keep := {s.active}))
  }

  function KeepLeased(s: State, t: nat): State
    requires t in s.pruners
  {
    var p := s.pruners[t];
    var leased := set id | id in s.leases && s.leases[id].until > p.floor * MILLIS :: s.leases[id].gen;
    SetPruner(s, t, p.(phase := ReadGenerations, keep := p.keep + leased))
  }

  function KeepRecent(s: State, t: nat): State
    requires t in s.pruners
  {
    var p := s.pruners[t];
    var recent := set g | g in s.disk.scores && s.disk.scores[g] >= p.floor - RETENTION_SECONDS;
    var keep := p.keep + recent;
    SetPruner(s, t, p.(phase := Sweep, keep := keep, listed := s.disk.scores.Keys, toRead := set g | g in keep :: GenKey(g)))
  }

  /** Reads one manifest; a missing one ends the run. */
  function ReadManifest(s: State, t: nat, k: Key): State
    requires t in s.pruners
  {
    var p := s.pruners[t];
    if k !in s.disk.store || s.disk.store[k].ChunkDoc? then SetPruner(s, t, p.(stopped := true))
    else
      var refs := s.disk.store[k].refs;
      var more := set r | r in refs && r.ManifestKey?;
      SetPruner(s, t, p.(refs := p.refs + refs, toRead := p.toRead - {k} + more))
  }

  /** Renews the global token, or ends the run (versioned_prune.go:22-24). */
  function Fence(s: State, t: nat): State
    requires t in s.pruners
  {
    if !HeldBy(s.time, s.nodes, Global, t) then SetPruner(s, t, s.pruners[t].(stopped := true))
    else SetNode(s, Global, At(s.nodes, Global).(hold := Held(t, Clock(s.time, Global) + MAINTENANCE_TTL)))
  }

  /** What a registry lists beyond the references; generations were listed with the
      scores. */
  function ListDead(s: State, t: nat, ns: Ns): State
    requires t in s.pruners
  {
    var p := s.pruners[t];
    var records := set k | k in s.disk.registry && NsOf(k) == ns && k !in p.refs;
    var gens := set g | g in p.listed && g !in p.keep :: GenKey(g);
    SetPruner(s, t, p.(dead := p.dead + records + (if ns == Global then gens else {})))
  }

  /** Deletes one batch under the namespace's own token (versioned_prune.go:247-276). */
  function Delete(s: State, t: nat, ns: Ns, batch: set<Key>): State
    requires t in s.pruners
  {
    if !HeldBy(s.time, s.nodes, ns, t) then SetPruner(s, t, s.pruners[t].(stopped := true))
    else s.(disk := Disk(s.disk.store - batch,
                         map g | g in s.disk.scores && GenKey(g) !in batch :: s.disk.scores[g],
                         s.disk.registry - batch))
  }

  predicate GrantRefused(s: State, t: nat, shard: nat) {
    var n := At(s.nodes, Shard(shard));
    || n.fence > t
    || (Locked(s.time, s.nodes, Shard(shard)) && n.hold.token != t)
    || AnyWriting(s.time, s.nodes, Shard(shard))
  }

  /** Takes or extends a shard's maintenance key (versioned_prune.go:185-194). */
  function Grant(s: State, t: nat, shard: nat): State
    requires t in s.pruners
  {
    if GrantRefused(s, t, shard) then SetPruner(s, t, s.pruners[t].(stopped := true))
    else
      var n, clock := At(s.nodes, Shard(shard)), Clock(s.time, Shard(shard));
      SetNode(SetPruner(s, t, s.pruners[t].(between := {shard})), Shard(shard),
              Node(Held(t, clock + MAINTENANCE_TTL), t, Unexpired(n.writers, clock)))
  }

  /** Renews the global token after a grant. */
  function Confirm(s: State, t: nat): State
    requires t in s.pruners
  {
    var s1 := Fence(s, t);
    if s1.pruners[t].stopped then s1 else SetPruner(s1, t, s1.pruners[t].(between := {}))
  }

  function Release(s: State, t: nat, ns: Ns): State {
    if !HeldBy(s.time, s.nodes, ns, t) then s
    else SetNode(s, ns, At(s.nodes, ns).(hold := Free))
  }

  function Stop(s: State, t: nat): State
    requires t in s.pruners
  {
    SetPruner(s, t, s.pruners[t].(stopped := true))
  }

  // ----- serving -----

  /** A refresh pins the active generation with a lease (versioned.go:271-299). */
  function Pin(s: State, i: nat, id: nat, duration: nat): State
    requires i in s.instances
  {
    if Locked(s.time, s.nodes, Global) then s
    else OpenLease(s, id, duration).(instances := s.instances[i := s.instances[i].(pinned := Gen(s.active))])
  }

  /** It installs the generation it built, or gives up. */
  function Install(s: State, i: nat): State
    requires i in s.instances
  {
    s.(instances := s.instances[i := Instance(s.instances[i].pinned, Empty)])
  }

  function GiveUp(s: State, i: nat): State
    requires i in s.instances
  {
    s.(instances := s.instances[i := s.instances[i].(pinned := Empty)])
  }

  // ----- the transition system -----

  datatype Action =
    | Tick(millis: nat)
    | ReaderAct(id: nat, r: ReaderAction)
    | WriterAct(id: nat, w: WriterAction)
    | StartPrune
    | PrunerAct(t: nat, p: PrunerAction)
    | InstanceAct(i: nat, v: InstanceAction)

  datatype ReaderAction = RAcquire(duration: nat) | RRenew(duration: nat) | RClose

  datatype WriterAction =
    | WAcquire(expected: nat, duration: nat) | WRenew(duration: nat) | WClose(ns: Ns)
    | WChange(more: Docs, toStage: set<Key>, result: Receipt) | WNothing
    | WDeadline(shard: nat) | WMirror(d: Deadline) | WStage(key: Key) | WCommit

  datatype PrunerAction =
    | PActive | PLeases | PGenerations | PManifest(key: Key) | PFence | PList(ns: Ns)
    | PDelete(ns: Ns, batch: set<Key>) | PGrant(shard: nat) | PConfirm | PRelease(ns: Ns) | PStop

  datatype InstanceAction = IStart | IPin(id: nat, duration: nat) | IInstall | IGiveUp

  /** The pruner is running and between commands. */
  predicate Running(s: State, t: nat) { t in s.pruners && !s.pruners[t].stopped }

  predicate Sweeping(s: State, t: nat) {
    Running(s, t) && s.pruners[t].phase == Sweep && s.pruners[t].toRead == {} && s.pruners[t].between == {}
  }

  /** When the client code can issue an action. */
  ghost predicate Enabled(s: State, a: Action) {
    match a
    case Tick(_) => true
    case ReaderAct(id, r) => r.RAcquire? ==> id !in s.used
    case WriterAct(id, w) => WriterEnabled(s, id, w)
    case StartPrune => true
    case PrunerAct(t, p) => t in s.pruners && PrunerEnabled(s, t, p)
    case InstanceAct(i, v) => InstanceEnabled(s, i, v)
  }

  ghost predicate WriterEnabled(s: State, id: nat, w: WriterAction) {
    match w
    case WAcquire(_, _) => id !in s.used
    case WRenew(_) => true
    case WClose(_) => true
    case WChange(more, toStage, result) =>
      && id in s.writers && s.writers[id].plan.Unplanned?
      && result.previous == s.writers[id].expected && result.version == id
      && PlanOk(s.docs, id, s.writers[id].expected, more, toStage)
    case WNothing => id in s.writers && s.writers[id].plan.Unplanned?
    case WDeadline(_) => id in s.writers
    case WMirror(d) => id in s.writers && d in s.writers[id].deadlines
    case WStage(k) => id in s.writers && s.writers[id].plan.Change? && k in s.writers[id].plan.toStage
    case WCommit =>
      && id in s.writers && !s.writers[id].plan.Unplanned?
      && (s.writers[id].plan.Change? ==> s.writers[id].staged == s.writers[id].plan.toStage)
  }

  predicate PrunerEnabled(s: State, t: nat, p: PrunerAction)
    requires t in s.pruners
  {
    match p
    case PActive => Running(s, t) && s.pruners[t].phase == ReadActive
    case PLeases => Running(s, t) && s.pruners[t].phase == ReadLeases
    case PGenerations => Running(s, t) && s.pruners[t].phase == ReadGenerations
    case PManifest(k) => Running(s, t) && k in s.pruners[t].toRead
    case PFence => Running(s, t) && s.pruners[t].between == {}
    case PList(_) => Sweeping(s, t)
    case PDelete(ns, batch) =>
      Sweeping(s, t) && batch <= s.pruners[t].dead && |batch| <= PRUNE_BATCH && forall k :: k in batch ==> NsOf(k) == ns
    case PGrant(_) => Sweeping(s, t)
    case PConfirm => Running(s, t) && s.pruners[t].between != {}
    case PRelease(ns) => ns == Global ==> s.pruners[t].stopped
    case PStop => true
  }

  predicate InstanceEnabled(s: State, i: nat, v: InstanceAction) {
    match v
    case IStart => i !in s.instances
    case IPin(id, _) => i in s.instances && s.instances[i].pinned == Empty && id !in s.used
    case IInstall => i in s.instances && s.instances[i].pinned != Empty
    case IGiveUp => i in s.instances
  }

  function Apply(s: State, a: Action): State
    requires Enabled(s, a)
  {
    match a
    case Tick(millis) => s.(time := s.time.(now := s.time.now + millis))
    case ReaderAct(id, r) => ReaderStep(s, id, r)
    case WriterAct(id, w) => WriterStep(s, id, w)
    case StartPrune => Maintain(s)
    case PrunerAct(t, p) => PrunerStep(s, t, p)
    case InstanceAct(i, v) => InstanceStep(s, i, v)
  }

  function ReaderStep(s: State, id: nat, r: ReaderAction): State {
    match r
    case RAcquire(duration) => OpenLease(s, id, duration)
    case RRenew(duration) => RenewLease(s, id, duration)
    case RClose => CloseLease(s, id)
  }

  function WriterStep(s: State, id: nat, w: WriterAction): State
    requires WriterEnabled(s, id, w)
  {
    match w
    case WAcquire(expected, duration) => OpenWriter(s, id, expected, duration)
    case WRenew(duration) => RenewWriter(s, id, duration)
    case WClose(ns) => CloseWriter(s, id, ns)
    case WChange(more, toStage, result) => PlanChange(s, id, more, toStage, result)
    case WNothing => PlanNothing(s, id)
    case WDeadline(shard) => ReadDeadline(s, id, shard)
    case WMirror(d) => Mirror(s, id, d)
    case WStage(k) => Stage(s, id, k)
    case WCommit => CommitWrite(s, id)
  }

  function PrunerStep(s: State, t: nat, p: PrunerAction): State
    requires t in s.pruners
  {
    match p
    case PActive => KeepActive(s, t)
    case PLeases => KeepLeased(s, t)
    case PGenerations => KeepRecent(s, t)
    case PManifest(k) => ReadManifest(s, t, k)
    case PFence => Fence(s, t)
    case PList(ns) => ListDead(s, t, ns)
    case PDelete(ns, batch) => Delete(s, t, ns, batch)
    case PGrant(shard) => Grant(s, t, shard)
    case PConfirm => Confirm(s, t)
    case PRelease(ns) => Release(s, t, ns)
    case PStop => Stop(s, t)
  }

  function InstanceStep(s: State, i: nat, v: InstanceAction): State
    requires InstanceEnabled(s, i, v)
  {
    match v
    case IStart => s.(instances := s.instances[i := Instance(Empty, Empty)])
    case IPin(id, duration) => Pin(s, i, id, duration)
    case IInstall => Install(s, i)
    case IGiveUp => GiveUp(s, i)
  }

  /** A newly created collection: an empty first generation, in any layout. */
  ghost predicate Initial(s: State) {
    && s.nodes == map[] && s.active == 0 && s.leases == map[] && s.log == Log(map[], map[0 := 1], [])
    && s.writers == map[] && s.pruners == map[] && s.instances == map[] && s.used == {0}
    && Known(s.docs, GenKey(0)) && s.docs[GenKey(0)].sequence == 1
    && (forall k :: k in s.docs ==> k == GenKey(0) || (k.ManifestKey? && k.id == 0))
    && (forall k :: k in s.docs && k.ManifestKey? ==> s.docs[k] == RefDoc(0, {}))
    && (forall r :: r in s.docs[GenKey(0)].refs ==> r.ManifestKey? && r in s.docs)
    && s.disk.store == s.docs && s.disk.scores.Keys == {0} && s.disk.registry == set k | k in s.docs && k.ManifestKey?
  }
}
