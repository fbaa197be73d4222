/** What a granted lease or maintenance key is worth: it lasts as long as was asked for,
    through whatever everybody else does. */
module VersionedLeases {
  import opened VersionedStore
  import opened VersionedInvariant
  import opened VersionedSteps
  import opened VersionedRuns
  import opened VersionedLocks
  import opened VersionedPreparations

  // ----- runs with their actions -----

  ghost predicate Took(s: State, a: Action, t: State) { Enabled(s, a) && t == Apply(s, a) }

  /** A run together with the action of every step. */
  ghost predicate Trace(r: seq<State>, acts: seq<Action>) {
    |r| == |acts| + 1 && Initial(r[0]) && forall i {:trigger acts[i]} :: 0 <= i < |acts| ==> Took(r[i], acts[i], r[i + 1])
  }

  lemma TraceIsRun(r: seq<State>, acts: seq<Action>)
    requires Trace(r, acts)
    ensures Run(r)
  {
    hide Enabled, Apply, Initial;
    forall i | 0 <= i < |r| - 1 ensures StepAt(r, i) { assert Took(r[i], acts[i], r[i + 1]); }
  }

  lemma TraceInv(r: seq<State>, acts: seq<Action>, i: nat)
    requires Trace(r, acts) && i <= |acts|
    ensures Inv(r[i])
  {
    hide Trace, Inv;
    TraceIsRun(r, acts);
    assert |r| == |acts| + 1 by { TraceLength(r, acts); }
    RunKeeps(r, i);
  }

  lemma TraceLength(r: seq<State>, acts: seq<Action>)
    requires Trace(r, acts)
    ensures |r| == |acts| + 1
  {
  }

  lemma TraceStep(r: seq<State>, acts: seq<Action>, i: nat)
    requires Trace(r, acts) && i < |acts|
    ensures |r| == |acts| + 1 && Enabled(r[i], acts[i]) && r[i + 1] == Apply(r[i], acts[i])
  {
    hide Enabled, Apply, Initial;
    assert Took(r[i], acts[i], r[i + 1]);
  }

  // ----- time -----

  /** A tick moves every clock by its length and does nothing else; no other action takes
      time. */
  lemma TimePassesInTicks(s: State, a: Action, ns: Ns)
    requires Enabled(s, a)
    ensures Clock(Apply(s, a).time, ns) == Clock(s.time, ns) + if a.Tick? then a.millis else 0
    ensures a.Tick? ==> Apply(s, a) == s.(time := Apply(s, a).time)
  {
    hide ReaderStep, PrunerStep, WriterStep, InstanceStep, WriterEnabled, PrunerEnabled, InstanceEnabled, MaintainedNode, LiveLeases;
    match a
    case Tick(_) =>
    case ReaderAct(x, r) => ReaderFrame(s, x, r);
    case WriterAct(x, w) => WriterTime(s, x, w);
    case StartPrune =>
    case PrunerAct(t, p) => PrunerFrame(s, t, p);
    case InstanceAct(i, v) => InstanceFrame(s, i, v);
  }

  // ----- reader leases -----

  /** The action closes the valid reader lease `id` or renews it for less than it has. */
  predicate Cuts(s: State, a: Action, id: nat) {
    a.ReaderAct? && a.id == id &&
    (a.r.RClose? || (a.r.RRenew? && id in s.leases && Clock(s.time, Global) + a.r.duration < s.leases[id].until))
  }

  ghost predicate LeftAlone(r: seq<State>, acts: seq<Action>, i: nat, j: nat, id: nat)
    requires j <= |acts| <= |r|
  {
    forall x {:trigger acts[x]} :: i <= x < j ==> !Cuts(r[x], acts[x], id)
  }

  predicate HasLease(s: State, id: nat, gen: nat, until: int) {
    id in s.used && id in s.leases && s.leases[id].gen == gen && until <= s.leases[id].until
  }

  lemma LeaseKept(s: State, a: Action, id: nat, gen: nat, until: int)
    requires Enabled(s, a) && HasLease(s, id, gen, until) && !Cuts(s, a, id) && Clock(Apply(s, a).time, Global) < until
    ensures HasLease(Apply(s, a), id, gen, until)
  {
    hide ReaderStep, InstanceStep, Maintain, PrunerStep, WriterStep, WriterEnabled, PrunerEnabled, InstanceEnabled, HasLease;
    TimePassesInTicks(s, a, Global);
    match a
    case Tick(_) => SameLease(s, Apply(s, a), id, gen, until);
    case ReaderAct(x, r) => ReaderKeepsLease(s, x, r, id, gen, until);
    case WriterAct(x, w) => WriterFrame(s, x, w); SameLease(s, WriterStep(s, x, w), id, gen, until);
    case StartPrune => MaintainKeepsLease(s, id, gen, until);
    case PrunerAct(t, p) => PrunerFrame(s, t, p); SameLease(s, PrunerStep(s, t, p), id, gen, until);
    case InstanceAct(i, v) => InstanceKeepsLease(s, i, v, id, gen, until);
  }

  lemma SameLease(s: State, t: State, id: nat, gen: nat, until: int)
    requires HasLease(s, id, gen, until) && t.leases == s.leases && s.used <= t.used
    ensures HasLease(t, id, gen, until)
  {
  }

  lemma ReaderKeepsLease(s: State, x: nat, r: ReaderAction, id: nat, gen: nat, until: int)
    requires HasLease(s, id, gen, until) && !Cuts(s, ReaderAct(x, r), id) && (r.RAcquire? ==> x !in s.used)
    ensures HasLease(ReaderStep(s, x, r), id, gen, until)
  {
    hide Locked, Clock;
  }

  lemma MaintainKeepsLease(s: State, id: nat, gen: nat, until: int)
    requires HasLease(s, id, gen, until) && Clock(s.time, Global) < until
    ensures HasLease(Maintain(s), id, gen, until)
  {
    hide MaintainedNode, MaintainRefused, NewPruner, Clock;
  }

  lemma InstanceKeepsLease(s: State, i: nat, v: InstanceAction, id: nat, gen: nat, until: int)
    requires InstanceEnabled(s, i, v) && HasLease(s, id, gen, until)
    ensures HasLease(InstanceStep(s, i, v), id, gen, until)
  {
    hide Locked, Clock;
  }

  lemma {:induction false} LeaseLasts(r: seq<State>, acts: seq<Action>, i: nat, j: nat, id: nat, gen: nat, until: int)
    requires Trace(r, acts) && i <= j <= |acts| <= |r| && HasLease(r[i], id, gen, until)
    requires LeftAlone(r, acts, i, j, id) && Clock(r[j].time, Global) < until
    ensures HasLease(r[j], id, gen, until) && Reading(r[j].time, r[j].leases, id)
    decreases j - i
  {
    hide Enabled, Apply, Trace, Cuts;
    if i < j {
      TraceStep(r, acts, j - 1);
      TimePassesInTicks(r[j - 1], acts[j - 1], Global);
      LeaseLasts(r, acts, i, j - 1, id, gen, until);
      LeaseKept(r[j - 1], acts[j - 1], id, gen, until);
    }
  }

  // ----- documents -----

  ghost predicate DocsGrow(s: State, t: State) { forall k :: k in s.docs ==> k in t.docs && t.docs[k] == s.docs[k] }

  lemma DocsStep(s: State, a: Action)
    requires Inv(s) && Enabled(s, a)
    ensures DocsGrow(s, Apply(s, a))
  {
    hide Inv, ReaderStep, PrunerStep, WriterStep, InstanceStep, Maintain, WriterEnabled, PrunerEnabled, InstanceEnabled;
    match a
    case Tick(_) =>
    case ReaderAct(x, r) => ReaderFrame(s, x, r);
    case WriterAct(x, w) => WriterDocs(s, x, w);
    case StartPrune => MaintainFrame(s);
    case PrunerAct(t, p) => PrunerFrame(s, t, p);
    case InstanceAct(i, v) => InstanceFrame(s, i, v);
  }

  lemma WriterDocs(s: State, id: nat, w: WriterAction)
    requires Inv(s) && WriterEnabled(s, id, w)
    ensures DocsGrow(s, WriterStep(s, id, w))
  {
    hide Inv, PlanOk, Stage, CommitWrite, OpenWriter, RenewWriter, CloseWriter, Mirror, ReadDeadline;
    if w.WStage? { StageFrame(s, id, w.key); }
    if w.WCommit? { CommitFrame(s, id); }
    if w.WAcquire? || w.WRenew? || w.WClose? || w.WMirror? || w.WDeadline? { LeaseFrame(s, id, w); }
    if w.WChange? { forall k | k in s.docs ensures k !in w.more { if k in w.more { PlanIsNew(s, id, w.more, w.toStage, k); } } }
  }

  lemma {:induction false} DocsOnlyGrow(r: seq<State>, acts: seq<Action>, i: nat, j: nat)
    requires Trace(r, acts) && i <= j <= |acts| <= |r|
    ensures DocsGrow(r[i], r[j])
    decreases j - i
  {
    hide Enabled, Apply, Trace, Inv;
    if i < j {
      TraceStep(r, acts, j - 1);
      TraceInv(r, acts, j - 1);
      DocsOnlyGrow(r, acts, i, j - 1);
      DocsStep(r[j - 1], acts[j - 1]);
    }
  }

  /** `t` stores every record that generation `g` reached in `s`, unchanged. */
  ghost predicate Preserves(s: State, t: State, g: nat) {
    Known(s.docs, GenKey(g)) && forall k :: Reaches(s.docs, g, k) ==> k in t.disk.store && t.disk.store[k] == Content(s.docs, k)
  }

  lemma LeasePreserves(r: seq<State>, acts: seq<Action>, i: nat, j: nat, id: nat, g: nat)
    requires Trace(r, acts) && i <= j <= |acts| <= |r| && Reading(r[j].time, r[j].leases, id) && r[j].leases[id].gen == g
    requires Known(r[i].docs, GenKey(g))
    ensures Preserves(r[i], r[j], g)
  {
    hide Trace, Run, Inv, Reading, Reaches, Known, Content;
    TraceIsRun(r, acts);
    TraceLength(r, acts);
    DocsOnlyGrow(r, acts, i, j);
    RetainsReachable(r, j);
    forall k | Reaches(r[i].docs, g, k) ensures k in r[j].disk.store && r[j].disk.store[k] == Content(r[i].docs, k) {
      ReachesLater(r[i], r[j], g, k);
      TraceInv(r, acts, i);
      ContentLater(r[i], r[j], g, k);
    }
  }

  lemma ReachesLater(s: State, t: State, g: nat, k: Key)
    requires DocsGrow(s, t) && Reaches(s.docs, g, k)
    ensures Reaches(t.docs, g, k)
  {
    if m :| ViaManifest(s.docs, g, m, k) { assert ViaManifest(t.docs, g, m, k); }
  }

  lemma ContentLater(s: State, t: State, g: nat, k: Key)
    requires Inv(s) && DocsGrow(s, t) && Reaches(s.docs, g, k)
    ensures Content(t.docs, k) == Content(s.docs, k)
  {
    hide Contents, Registered, Protected, Exclusive, WritersOk, StagedKept, Chain, LeasesOk, PrunersOk, HolderOk, ShardHolds, Fences, InstancesOk;
    assert DocOk(s.docs, s.writers, GenKey(g));
    if m :| ViaManifest(s.docs, g, m, k) { assert DocOk(s.docs, s.writers, m); }
  }

  lemma ActiveKnown(s: State)
    requires Inv(s)
    ensures Known(s.docs, GenKey(s.active)) && forall id :: Reading(s.time, s.leases, id) ==> Known(s.docs, GenKey(s.leases[id].gen))
  {
    hide Contents, DocsOk, Registered, Exclusive, WritersOk, StagedKept, Chain, LeasesOk, PrunersOk, HolderOk, ShardHolds, Fences, InstancesOk;
  }

  lemma LeaseWorth(r: seq<State>, acts: seq<Action>, i: nat, j: nat, id: nat, g: nat, until: int)
    requires Trace(r, acts) && i < j <= |acts| <= |r| && HasLease(r[i + 1], id, g, until) && Known(r[i].docs, GenKey(g))
    requires LeftAlone(r, acts, i + 1, j, id) && Clock(r[j].time, Global) < until
    ensures Reading(r[j].time, r[j].leases, id) && r[j].leases[id].gen == g && Preserves(r[i], r[j], g)
  {
    hide Trace, Preserves;
    LeaseLasts(r, acts, i + 1, j, id, g, until);
    LeasePreserves(r, acts, i, j, id, g);
  }

  /** A reader who asked for `d` milliseconds outside maintenance has the generation that
      was active, complete and unchanged, for `d` milliseconds, unless he gives the lease
      up himself.  During maintenance nothing is granted. */
  lemma AcquiredLeaseLasts(r: seq<State>, acts: seq<Action>, i: nat, j: nat, id: nat, d: nat)
    requires Trace(r, acts) && i < j <= |acts| && |r| == |acts| + 1 && acts[i] == ReaderAct(id, RAcquire(d))
    ensures Locked(r[i].time, r[i].nodes, Global) ==> r[i + 1] == r[i]
    ensures !Locked(r[i].time, r[i].nodes, Global) && LeftAlone(r, acts, i + 1, j, id) && Clock(r[j].time, Global) < Clock(r[i].time, Global) + d ==>
              && Reading(r[j].time, r[j].leases, id) && r[j].leases[id].gen == r[i].active
              && Preserves(r[i], r[j], r[i].active)
  {
    hide Trace, Inv, Preserves;
    TraceStep(r, acts, i);
    TraceInv(r, acts, i);
    ActiveKnown(r[i]);
    if !Locked(r[i].time, r[i].nodes, Global) && LeftAlone(r, acts, i + 1, j, id) && Clock(r[j].time, Global) < Clock(r[i].time, Global) + d {
      LeaseWorth(r, acts, i, j, id, r[i].active, Clock(r[i].time, Global) + d);
    }
  }

  /** Renewing a lease that has not run out gives it `d` more milliseconds from now; one
      that has run out stays so. */
  lemma RenewedLeaseLasts(r: seq<State>, acts: seq<Action>, i: nat, j: nat, id: nat, d: nat)
    requires Trace(r, acts) && i < j <= |acts| && |r| == |acts| + 1 && acts[i] == ReaderAct(id, RRenew(d)) && id in r[i].used
    ensures !Reading(r[i].time, r[i].leases, id) ==> r[i + 1] == r[i] && !Reading(r[j].time, r[j].leases, id)
    ensures Reading(r[i].time, r[i].leases, id) && LeftAlone(r, acts, i + 1, j, id) && Clock(r[j].time, Global) < Clock(r[i].time, Global) + d ==>
              && Reading(r[j].time, r[j].leases, id) && r[j].leases[id].gen == r[i].leases[id].gen
              && Preserves(r[i], r[j], r[i].leases[id].gen)
  {
    hide Trace, Inv, Preserves, Run;
    TraceStep(r, acts, i);
    if !Reading(r[i].time, r[i].leases, id) && Reading(r[j].time, r[j].leases, id) {
      TraceIsRun(r, acts);
      ReaderNeverLosesData(r, i, j, id);
    }
    if Reading(r[i].time, r[i].leases, id) && LeftAlone(r, acts, i + 1, j, id) && Clock(r[j].time, Global) < Clock(r[i].time, Global) + d {
      var g := r[i].leases[id].gen;
      TraceInv(r, acts, i);
      ActiveKnown(r[i]);
      LeaseWorth(r, acts, i, j, id, g, Clock(r[i].time, Global) + d);
    }
  }

  predicate Renews(a: Action, id: nat) { a.ReaderAct? && a.id == id && a.r.RRenew? }

  lemma UntilStep(s: State, a: Action, id: nat, until: int)
    requires Enabled(s, a) && id in s.used && (id in s.leases ==> s.leases[id].until <= until) && !Renews(a, id)
    ensures id in Apply(s, a).used && (id in Apply(s, a).leases ==> Apply(s, a).leases[id].until <= until)
  {
    hide ReaderStep, InstanceStep, Maintain, PrunerStep, WriterStep, WriterEnabled, PrunerEnabled, InstanceEnabled;
    match a
    case Tick(_) =>
    case ReaderAct(x, r) => ReaderUntil(s, x, r, id);
    case WriterAct(x, w) => WriterFrame(s, x, w);
    case StartPrune => MaintainUntil(s, id);
    case PrunerAct(t, p) => PrunerFrame(s, t, p);
    case InstanceAct(i, v) => InstanceUntil(s, i, v, id);
  }

  /** Only a renewal changes what a lease has. */
  predicate NotLonger(leases: Leases, later: Leases, id: nat) { id in later ==> id in leases && later[id] == leases[id] }

  lemma ReaderUntil(s: State, x: nat, r: ReaderAction, id: nat)
    requires id in s.used && (r.RAcquire? ==> x !in s.used) && !(x == id && r.RRenew?)
    ensures id in ReaderStep(s, x, r).used && NotLonger(s.leases, ReaderStep(s, x, r).leases, id)
  {
    hide Locked, Clock;
  }

  lemma MaintainUntil(s: State, id: nat)
    ensures Maintain(s).used == s.used && NotLonger(s.leases, Maintain(s).leases, id)
  {
    hide MaintainedNode, MaintainRefused, NewPruner, Clock;
  }

  lemma InstanceUntil(s: State, i: nat, v: InstanceAction, id: nat)
    requires InstanceEnabled(s, i, v) && id in s.used
    ensures id in InstanceStep(s, i, v).used && NotLonger(s.leases, InstanceStep(s, i, v).leases, id)
  {
    hide Locked, Clock;
  }

  lemma {:induction false} LeaseEnds(r: seq<State>, acts: seq<Action>, i: nat, j: nat, id: nat, until: int)
    requires Trace(r, acts) && i <= j <= |acts| <= |r| && id in r[i].used && (id in r[i].leases ==> r[i].leases[id].until <= until)
    requires forall x {:trigger acts[x]} :: i <= x < j ==> !Renews(acts[x], id)
    ensures id in r[j].used && (id in r[j].leases ==> r[j].leases[id].until <= until)
    decreases j - i
  {
    hide Enabled, Apply, Trace;
    if i < j {
      LeaseEnds(r, acts, i, j - 1, id, until);
      TraceStep(r, acts, j - 1);
      UntilStep(r[j - 1], acts[j - 1], id, until);
    }
  }

  /** And it lasts no longer: an acquired or pinned lease that is not renewed is invalid
      once its time is over. */
  lemma UnrenewedLeaseEnds(r: seq<State>, acts: seq<Action>, i: nat, j: nat, id: nat, d: nat)
    requires Trace(r, acts) && i < j <= |acts| && |r| == |acts| + 1
    requires acts[i] == ReaderAct(id, RAcquire(d)) || (acts[i].InstanceAct? && acts[i].v == IPin(id, d))
    requires !Locked(r[i].time, r[i].nodes, Global)
    requires forall x {:trigger acts[x]} :: i < x < j ==> !Renews(acts[x], id)
    ensures Reading(r[j].time, r[j].leases, id) ==> Clock(r[j].time, Global) < Clock(r[i].time, Global) + d
  {
    hide Trace;
    TraceStep(r, acts, i);
    LeaseEnds(r, acts, i + 1, j, id, Clock(r[i].time, Global) + d);
  }

  /** A closed lease never becomes valid again. */
  lemma ClosedLeaseStaysClosed(r: seq<State>, acts: seq<Action>, i: nat, j: nat, id: nat)
    requires Trace(r, acts) && i < j <= |acts| && |r| == |acts| + 1 && acts[i] == ReaderAct(id, RClose) && id in r[i].used
    ensures !Reading(r[j].time, r[j].leases, id)
  {
    hide Trace, Inv, Run;
    TraceStep(r, acts, i);
    if Reading(r[j].time, r[j].leases, id) {
      TraceIsRun(r, acts);
      ReaderNeverLosesData(r, i + 1, j, id);
    }
  }

  /** A refresh pins the active generation in the same way. */
  lemma PinnedLeaseLasts(r: seq<State>, acts: seq<Action>, i: nat, j: nat, x: nat, id: nat, d: nat)
    requires Trace(r, acts) && i < j <= |acts| && |r| == |acts| + 1 && acts[i] == InstanceAct(x, IPin(id, d))
    ensures Locked(r[i].time, r[i].nodes, Global) ==> r[i + 1] == r[i]
    ensures !Locked(r[i].time, r[i].nodes, Global) && LeftAlone(r, acts, i + 1, j, id) && Clock(r[j].time, Global) < Clock(r[i].time, Global) + d ==>
              && Reading(r[j].time, r[j].leases, id) && r[j].leases[id].gen == r[i].active
              && Preserves(r[i], r[j], r[i].active)
  {
    hide Trace, Inv, Preserves;
    TraceStep(r, acts, i);
    TraceInv(r, acts, i);
    ActiveKnown(r[i]);
    if !Locked(r[i].time, r[i].nodes, Global) && LeftAlone(r, acts, i + 1, j, id) && Clock(r[j].time, Global) < Clock(r[i].time, Global) + d {
      LeaseWorth(r, acts, i, j, id, r[i].active, Clock(r[i].time, Global) + d);
    }
  }

  // ----- writer leases -----

  ghost predicate LeftToRun(r: seq<State>, acts: seq<Action>, i: nat, j: nat, id: nat)
    requires j <= |acts| <= |r|
  {
    forall x {:trigger acts[x]} :: i <= x < j ==> Lasting(r[x], acts[x], id)
  }

  predicate HasWriter(s: State, id: nat, expected: nat, until: int) {
    && id in s.used && id in s.writers && s.writers[id].expected == expected
    && id in At(s.nodes, Global).writers && until <= At(s.nodes, Global).writers[id]
  }

  lemma WriterKept(s: State, a: Action, id: nat, expected: nat, until: int)
    requires Enabled(s, a) && HasWriter(s, id, expected, until) && Lasting(s, a, id) && Clock(Apply(s, a).time, Global) < until
    ensures HasWriter(Apply(s, a), id, expected, until)
  {
    hide ReaderStep, InstanceStep, Maintain, PrunerStep, WriterStep, WriterEnabled, PrunerEnabled, InstanceEnabled, HasWriter, Lasting;
    TimePassesInTicks(s, a, Global);
    match a
    case Tick(_) => SameWriter(s, Apply(s, a), id, expected, until);
    case ReaderAct(x, r) => ReaderFrame(s, x, r); SameWriter(s, ReaderStep(s, x, r), id, expected, until);
    case WriterAct(x, w) => WriterKeepsWriter(s, x, w, id, expected, until);
    case StartPrune => MaintainKeepsWriter(s, id, expected, until);
    case PrunerAct(t, p) => PrunerFrame(s, t, p); PrunerNodes(s, t, p, id); SameWriter(s, PrunerStep(s, t, p), id, expected, until);
    case InstanceAct(i, v) => InstanceFrame(s, i, v); SameWriter(s, InstanceStep(s, i, v), id, expected, until);
  }

  lemma SameWriter(s: State, t: State, id: nat, expected: nat, until: int)
    requires HasWriter(s, id, expected, until) && s.used <= t.used && At(t.nodes, Global).writers == At(s.nodes, Global).writers
    requires id in s.writers ==> id in t.writers && t.writers[id].expected == s.writers[id].expected
    ensures HasWriter(t, id, expected, until)
  {
  }

  lemma MaintainKeepsWriter(s: State, id: nat, expected: nat, until: int)
    requires HasWriter(s, id, expected, until) && Clock(s.time, Global) < until
    ensures HasWriter(Maintain(s), id, expected, until)
  {
    hide MaintainRefused, LiveLeases, NewPruner, Clock;
  }

  lemma WriterKeepsWriter(s: State, x: nat, w: WriterAction, id: nat, expected: nat, until: int)
    requires WriterEnabled(s, x, w) && HasWriter(s, id, expected, until) && Lasting(s, WriterAct(x, w), id) && Clock(s.time, Global) < until
    ensures HasWriter(WriterStep(s, x, w), id, expected, until)
  {
    hide PlanOk, Stage, CommitWrite, Mirror, ReadDeadline, OpenWriter, RenewWriter, CloseWriter, HasWriter, Lasting;
    match w
    case WAcquire(expected2, d) => OpenKeepsWriter(s, x, expected2, d, id, expected, until);
    case WRenew(d) => RenewKeepsWriter(s, x, d, id, expected, until);
    case WClose(ns) => CloseKeepsWriter(s, x, ns, id, expected, until);
    case WChange(_, _, _) => SameWriter(s, WriterStep(s, x, w), id, expected, until);
    case WNothing => SameWriter(s, WriterStep(s, x, w), id, expected, until);
    case WDeadline(n) => DeadlineSame(s, x, n, id); SameWriter(s, WriterStep(s, x, w), id, expected, until);
    case WMirror(d) => MirrorNodes(s, x, d); LeaseFrame(s, x, w); SameWriter(s, WriterStep(s, x, w), id, expected, until);
    case WStage(k) => StageSame(s, x, k, id); StageExpected(s, x, k, id); SameWriter(s, WriterStep(s, x, w), id, expected, until);
    case WCommit => CommitFrame(s, x); SameWriter(s, WriterStep(s, x, w), id, expected, until);
  }

  lemma OpenKeepsWriter(s: State, x: nat, expected2: nat, d: nat, id: nat, expected: nat, until: int)
    requires x !in s.used && HasWriter(s, id, expected, until)
    ensures HasWriter(OpenWriter(s, x, expected2, d), id, expected, until)
  {
    hide Locked, Clock;
  }

  lemma RenewKeepsWriter(s: State, x: nat, d: nat, id: nat, expected: nat, until: int)
    requires HasWriter(s, id, expected, until) && Lasting(s, WriterAct(x, WRenew(d)), id)
    ensures HasWriter(RenewWriter(s, x, d), id, expected, until)
  {
    hide Clock;
  }

  lemma CloseKeepsWriter(s: State, x: nat, ns: Ns, id: nat, expected: nat, until: int)
    requires HasWriter(s, id, expected, until) && Lasting(s, WriterAct(x, WClose(ns)), id) && Clock(s.time, Global) < until
    ensures HasWriter(CloseWriter(s, x, ns), id, expected, until)
  {
    hide Clock, At;
    ClosedNodes(s, x, ns, id);
  }

  lemma DeadlineSame(s: State, x: nat, n: nat, id: nat)
    requires x in s.writers
    ensures var t := ReadDeadline(s, x, n);
            t == s.(writers := t.writers) && (id in s.writers ==> id in t.writers && t.writers[id].expected == s.writers[id].expected)
  {
    hide At, Locked, Writing;
  }

  lemma StageExpected(s: State, x: nat, k: Key, id: nat)
    requires x in s.writers
    ensures Stage(s, x, k).used == s.used
    ensures id in s.writers ==> id in Stage(s, x, k).writers && Stage(s, x, k).writers[id].expected == s.writers[id].expected
  {
    hide StageReplyOf, Put, Content, Clock;
  }

  lemma {:induction false} WriterLasts(r: seq<State>, acts: seq<Action>, i: nat, j: nat, id: nat, expected: nat, until: int)
    requires Trace(r, acts) && i <= j <= |acts| <= |r| && HasWriter(r[i], id, expected, until)
    requires LeftToRun(r, acts, i, j, id) && Clock(r[j].time, Global) < until
    ensures HasWriter(r[j], id, expected, until)
    decreases j - i
  {
    hide Enabled, Apply, Trace, Lasting, HasWriter;
    if i < j {
      TraceStep(r, acts, j - 1);
      TimePassesInTicks(r[j - 1], acts[j - 1], Global);
      WriterLasts(r, acts, i, j - 1, id, expected, until);
      WriterKept(r[j - 1], acts[j - 1], id, expected, until);
    }
  }

  /** A writer lease is granted exactly outside maintenance and for the active generation.
      It then lasts for `d` milliseconds unless its owner gives it up, and keeps
      maintenance out all the while. */
  lemma AcquiredWriterLasts(r: seq<State>, acts: seq<Action>, i: nat, j: nat, id: nat, expected: nat, d: nat)
    requires Trace(r, acts) && i < j <= |acts| && |r| == |acts| + 1 && acts[i] == WriterAct(id, WAcquire(expected, d))
    ensures Locked(r[i].time, r[i].nodes, Global) || r[i].active != expected ==> r[i + 1] == r[i]
    ensures && !Locked(r[i].time, r[i].nodes, Global) && r[i].active == expected
            && LeftToRun(r, acts, i + 1, j, id) && Clock(r[j].time, Global) < Clock(r[i].time, Global) + d ==>
              && Writing(r[j].time, r[j].nodes, Global, id) && !Locked(r[j].time, r[j].nodes, Global)
              && id in r[j].writers && r[j].writers[id].expected == expected
  {
    hide Trace, Inv;
    TraceStep(r, acts, i);
    if && !Locked(r[i].time, r[i].nodes, Global) && r[i].active == expected
       && LeftToRun(r, acts, i + 1, j, id) && Clock(r[j].time, Global) < Clock(r[i].time, Global) + d
    {
      WriterLasts(r, acts, i + 1, j, id, expected, Clock(r[i].time, Global) + d);
      TraceInv(r, acts, j);
      WritersExclude(r[j], id);
    }
  }

  lemma WritersExclude(s: State, id: nat)
    requires Inv(s) && Writing(s.time, s.nodes, Global, id)
    ensures !Locked(s.time, s.nodes, Global)
  {
    hide Contents, DocsOk, Registered, Protected, WritersOk, StagedKept, Chain, LeasesOk, PrunersOk, HolderOk, ShardHolds, Fences, InstancesOk;
  }

  /** Renewing does the same for a writer lease that has not run out, and nothing for
      one that has. */
  lemma RenewedWriterLasts(r: seq<State>, acts: seq<Action>, i: nat, j: nat, id: nat, d: nat)
    requires Trace(r, acts) && i < j <= |acts| && |r| == |acts| + 1 && acts[i] == WriterAct(id, WRenew(d))
    ensures !Writing(r[i].time, r[i].nodes, Global, id) ==> r[i + 1] == r[i]
    ensures && Writing(r[i].time, r[i].nodes, Global, id)
            && LeftToRun(r, acts, i + 1, j, id) && Clock(r[j].time, Global) < Clock(r[i].time, Global) + d ==>
              Writing(r[j].time, r[j].nodes, Global, id) && !Locked(r[j].time, r[j].nodes, Global)
  {
    hide Trace, Inv;
    TraceStep(r, acts, i);
    if && Writing(r[i].time, r[i].nodes, Global, id)
       && LeftToRun(r, acts, i + 1, j, id) && Clock(r[j].time, Global) < Clock(r[i].time, Global) + d
    {
      TraceInv(r, acts, i);
      OpenedWriter(r[i], id);
      WriterLasts(r, acts, i + 1, j, id, r[i].writers[id].expected, Clock(r[i].time, Global) + d);
      TraceInv(r, acts, j);
      WritersExclude(r[j], id);
    }
  }

  /** No deadline of the operation in the namespace is past `until`. */
  predicate EndsBy(nodes: Nodes, ns: Ns, id: nat, until: int) { id in At(nodes, ns).writers ==> At(nodes, ns).writers[id] <= until }

  lemma EndStep(s: State, a: Action, id: nat, until: int)
    requires Enabled(s, a) && id in s.used && EndsBy(s.nodes, Global, id, until) && !(a.WriterAct? && a.id == id && a.w.WRenew?)
    ensures id in Apply(s, a).used && EndsBy(Apply(s, a).nodes, Global, id, until)
  {
    hide ReaderStep, InstanceStep, Maintain, PrunerStep, WriterStep, WriterEnabled, PrunerEnabled, InstanceEnabled, At;
    match a
    case Tick(_) =>
    case ReaderAct(x, r) => ReaderFrame(s, x, r);
    case WriterAct(x, w) => WriterEnd(s, x, w, id);
    case StartPrune => MaintainEnd(s, id);
    case PrunerAct(t, p) => PrunerFrame(s, t, p); PrunerNodes(s, t, p, id);
    case InstanceAct(i, v) => InstanceFrame(s, i, v);
  }

  lemma MaintainEnd(s: State, id: nat)
    ensures Maintain(s).used == s.used
    ensures forall until :: EndsBy(s.nodes, Global, id, until) ==> EndsBy(Maintain(s).nodes, Global, id, until)
  {
    hide MaintainRefused, LiveLeases, NewPruner, Clock;
  }

  lemma WriterEnd(s: State, x: nat, w: WriterAction, id: nat)
    requires WriterEnabled(s, x, w) && id in s.used && !(x == id && w.WRenew?)
    ensures id in WriterStep(s, x, w).used
    ensures forall until :: EndsBy(s.nodes, Global, id, until) ==> EndsBy(WriterStep(s, x, w).nodes, Global, id, until)
  {
    hide PlanOk, Locked, Writing, Clock, Stage, CommitWrite;
    if w.WStage? { StageFrame(s, x, w.key); }
    if w.WCommit? { CommitFrame(s, x); }
  }

  lemma {:induction false} WriterEnds(r: seq<State>, acts: seq<Action>, i: nat, j: nat, id: nat, until: int)
    requires Trace(r, acts) && i <= j <= |acts| <= |r| && id in r[i].used && EndsBy(r[i].nodes, Global, id, until)
    requires forall x {:trigger acts[x]} :: i <= x < j ==> !(acts[x].WriterAct? && acts[x].id == id && acts[x].w.WRenew?)
    ensures id in r[j].used && EndsBy(r[j].nodes, Global, id, until)
    decreases j - i
  {
    hide Enabled, Apply, Trace, EndsBy;
    if i < j {
      WriterEnds(r, acts, i, j - 1, id, until);
      TraceStep(r, acts, j - 1);
      EndStep(r[j - 1], acts[j - 1], id, until);
    }
  }

  /** A writer lease that is not renewed is invalid once its time is over. */
  lemma UnrenewedWriterEnds(r: seq<State>, acts: seq<Action>, i: nat, j: nat, id: nat, expected: nat, d: nat)
    requires Trace(r, acts) && i < j <= |acts| && |r| == |acts| + 1 && acts[i] == WriterAct(id, WAcquire(expected, d))
    requires !Locked(r[i].time, r[i].nodes, Global) && r[i].active == expected
    requires forall x {:trigger acts[x]} :: i < x < j ==> !(acts[x].WriterAct? && acts[x].id == id && acts[x].w.WRenew?)
    ensures Writing(r[j].time, r[j].nodes, Global, id) ==> Clock(r[j].time, Global) < Clock(r[i].time, Global) + d
  {
    hide Trace;
    TraceStep(r, acts, i);
    WriterEnds(r, acts, i + 1, j, id, Clock(r[i].time, Global) + d);
  }

  /** Closing ends the lease or the mirror at once, and nobody else's. */
  lemma ClosedWriterIsGone(s: State, id: nat, ns: Ns)
    requires Enabled(s, WriterAct(id, WClose(ns)))
    ensures var u := Apply(s, WriterAct(id, WClose(ns)));
            && !Writing(u.time, u.nodes, ns, id)
            && (forall x, other :: x != id || other != ns ==> Writing(u.time, u.nodes, other, x) == Writing(s.time, s.nodes, other, x))
  {
    hide Clock;
  }

  lemma OpenedWriter(s: State, id: nat)
    requires Inv(s) && Writing(s.time, s.nodes, Global, id)
    ensures id in s.writers && id in s.used
  {
    hide Contents, DocsOk, Registered, Protected, Exclusive, Chain, LeasesOk, PrunersOk, HolderOk, ShardHolds, Fences, InstancesOk, Sourced;
    assert id in s.writers;
    assert WriterOk(s.docs, s.log.committed, s.used, id, s.writers[id]);
  }

  // ----- maintenance keys -----

  ghost predicate NotReleased(acts: seq<Action>, i: nat, j: nat, ns: Ns, t: nat)
    requires j <= |acts|
  {
    forall x {:trigger acts[x]} :: i <= x < j ==> acts[x] != PrunerAct(t, PRelease(ns))
  }

  predicate HasKey(s: State, ns: Ns, t: nat, until: int) {
    var h := At(s.nodes, ns).hold;
    h.Held? && h.token == t && until <= h.until && until <= Clock(s.time, ns) + MAINTENANCE_TTL
  }

  lemma KeyKept(s: State, a: Action, ns: Ns, t: nat, until: int)
    requires Enabled(s, a) && HasKey(s, ns, t, until) && a != PrunerAct(t, PRelease(ns)) && Clock(Apply(s, a).time, ns) < until
    ensures HasKey(Apply(s, a), ns, t, until)
  {
    hide ReaderStep, InstanceStep, Maintain, PrunerStep, WriterStep, WriterEnabled, PrunerEnabled, InstanceEnabled, HasKey;
    TimePassesInTicks(s, a, ns);
    match a
    case Tick(_) => SameKey(s, Apply(s, a), ns, t, until);
    case ReaderAct(x, r) => ReaderFrame(s, x, r); SameKey(s, ReaderStep(s, x, r), ns, t, until);
    case WriterAct(x, w) => WriterHold(s, x, w, ns); SameKey(s, WriterStep(s, x, w), ns, t, until);
    case StartPrune => KeyIsLocked(s, ns, t, until); MaintainHolds(s, ns); SameKey(s, Maintain(s), ns, t, until);
    case PrunerAct(u, p) => PrunerKeepsHold(s, u, p, ns, t, until);
    case InstanceAct(i, v) => InstanceFrame(s, i, v); SameKey(s, InstanceStep(s, i, v), ns, t, until);
  }

  lemma SameKey(s: State, t: State, ns: Ns, token: nat, until: int)
    requires HasKey(s, ns, token, until) && At(t.nodes, ns).hold == At(s.nodes, ns).hold && Clock(s.time, ns) <= Clock(t.time, ns)
    ensures HasKey(t, ns, token, until)
  {
  }

  lemma KeyIsLocked(s: State, ns: Ns, t: nat, until: int)
    requires HasKey(s, ns, t, until) && Clock(s.time, ns) < until
    ensures HeldBy(s.time, s.nodes, ns, t)
  {
  }

  lemma WriterHold(s: State, id: nat, w: WriterAction, ns: Ns)
    requires WriterEnabled(s, id, w)
    ensures At(WriterStep(s, id, w).nodes, ns).hold == At(s.nodes, ns).hold
  {
    hide PlanOk, Locked, Writing, Clock, Stage, CommitWrite;
    if w.WStage? { StageFrame(s, id, w.key); }
    if w.WCommit? { CommitFrame(s, id); }
  }

  lemma PrunerKeepsHold(s: State, u: nat, p: PrunerAction, ns: Ns, t: nat, until: int)
    requires u in s.pruners && HasKey(s, ns, t, until) && !(u == t && p == PRelease(ns)) && Clock(s.time, ns) < until
    ensures HasKey(PrunerStep(s, u, p), ns, t, until)
  {
    hide Fence, Confirm, Grant, Release, KeepActive, KeepLeased, KeepRecent, ReadManifest, ListDead, Delete, Stop, At, Clock, AnyWriting;
    PrunerFrame(s, u, p);
    match p
    case PFence => FenceNodes(s, u, ns);
    case PConfirm => ConfirmNodes(s, u); FenceNodes(s, u, ns);
    case PGrant(shard) => GrantNodes(s, u, shard, ns);
    case PRelease(n) => ReleaseNodes(s, u, n, ns);
    case _ => PrunerReads(s, u, p);
  }

  lemma {:induction false} KeyLasts(r: seq<State>, acts: seq<Action>, i: nat, j: nat, ns: Ns, t: nat, until: int)
    requires Trace(r, acts) && i <= j <= |acts| <= |r| && HasKey(r[i], ns, t, until)
    requires NotReleased(acts, i, j, ns, t) && Clock(r[j].time, ns) < until
    ensures HasKey(r[j], ns, t, until) && HeldBy(r[j].time, r[j].nodes, ns, t)
    decreases j - i
  {
    hide Enabled, Apply, Trace, HasKey, HeldBy;
    TraceLength(r, acts);
    if i < j {
      TraceStep(r, acts, j - 1);
      TimePassesInTicks(r[j - 1], acts[j - 1], ns);
      KeyLasts(r, acts, i, j - 1, ns, t, until);
      KeyKept(r[j - 1], acts[j - 1], ns, t, until);
    }
    KeyIsLocked(r[j], ns, t, until);
  }

  /** If the token holds the namespace, then no longer than `until`. */
  predicate KeyEndsBy(s: State, ns: Ns, t: nat, until: int) {
    t <= At(s.nodes, Global).fence && (At(s.nodes, ns).hold.Held? && At(s.nodes, ns).hold.token == t ==> At(s.nodes, ns).hold.until <= until)
  }

  /** The action extends the token's hold on the namespace. */
  predicate Extends(a: Action, ns: Ns, t: nat) {
    a.PrunerAct? && a.t == t && if ns == Global then a.p.PFence? || a.p.PConfirm? else a.p == PGrant(ns.n)
  }

  lemma KeyEndStep(s: State, a: Action, ns: Ns, t: nat, until: int)
    requires Inv(s) && Enabled(s, a) && KeyEndsBy(s, ns, t, until) && !Extends(a, ns, t)
    ensures KeyEndsBy(Apply(s, a), ns, t, until)
  {
    hide Inv, ReaderStep, InstanceStep, Maintain, PrunerStep, WriterStep, WriterEnabled, PrunerEnabled, InstanceEnabled, At;
    FencesNeverDecrease(s, a, Global);
    match a
    case Tick(_) =>
    case ReaderAct(x, r) => ReaderFrame(s, x, r);
    case WriterAct(x, w) => WriterHold(s, x, w, ns);
    case StartPrune => StartKeyEnds(s, ns, t, until);
    case PrunerAct(u, p) => PrunerKeyEnds(s, u, p, ns, t, until);
    case InstanceAct(i, v) => InstanceFrame(s, i, v);
  }

  lemma StartKeyEnds(s: State, ns: Ns, t: nat, until: int)
    requires KeyEndsBy(s, ns, t, until)
    ensures var h := At(Maintain(s).nodes, ns).hold; h.Held? && h.token == t ==> h.until <= until
  {
    hide MaintainRefused, LiveLeases, NewPruner, Clock;
  }

  lemma PrunerKeyEnds(s: State, u: nat, p: PrunerAction, ns: Ns, t: nat, until: int)
    requires u in s.pruners && KeyEndsBy(s, ns, t, until) && !Extends(PrunerAct(u, p), ns, t)
    ensures var h := At(PrunerStep(s, u, p).nodes, ns).hold; h.Held? && h.token == t ==> h.until <= until
  {
    hide Fence, Confirm, Grant, Release, KeepActive, KeepLeased, KeepRecent, ReadManifest, ListDead, Delete, Stop, At, Clock, GrantRefused;
    match p
    case PFence => FenceNodes(s, u, ns);
    case PConfirm => ConfirmNodes(s, u); FenceNodes(s, u, ns);
    case PGrant(shard) => GrantNodes(s, u, shard, ns);
    case PRelease(n) => ReleaseNodes(s, u, n, ns);
    case _ => PrunerReads(s, u, p);
  }

  lemma {:induction false} KeyEnds(r: seq<State>, acts: seq<Action>, i: nat, j: nat, ns: Ns, t: nat, until: int)
    requires Trace(r, acts) && i <= j <= |acts| <= |r| && KeyEndsBy(r[i], ns, t, until)
    requires forall x {:trigger acts[x]} :: i <= x < j ==> !Extends(acts[x], ns, t)
    ensures KeyEndsBy(r[j], ns, t, until)
    decreases j - i
  {
    hide Enabled, Apply, Trace, Inv, KeyEndsBy;
    if i < j {
      KeyEnds(r, acts, i, j - 1, ns, t, until);
      TraceStep(r, acts, j - 1);
      TraceInv(r, acts, j - 1);
      KeyEndStep(r[j - 1], acts[j - 1], ns, t, until);
    }
  }

  /** A token that is not renewed holds the global key for 30 seconds from its start and no
      longer, and a shard's key for 30 seconds from its grant. */
  lemma UnrenewedKeyEnds(r: seq<State>, acts: seq<Action>, i: nat, j: nat, ns: Ns, t: nat)
    requires Trace(r, acts) && i < j <= |acts| && |r| == |acts| + 1
    requires if ns == Global then acts[i] == StartPrune && t == At(r[i].nodes, Global).fence + 1 else acts[i] == PrunerAct(t, PGrant(ns.n))
    requires HeldBy(r[i + 1].time, r[i + 1].nodes, ns, t)
    requires forall x {:trigger acts[x]} :: i < x < j ==> !Extends(acts[x], ns, t)
    ensures HeldBy(r[j].time, r[j].nodes, ns, t) ==> Clock(r[j].time, ns) < Clock(r[i].time, ns) + 30000
  {
    hide Trace, Inv, Clock;
    TraceStep(r, acts, i);
    TraceInv(r, acts, i);
    if ns == Global { StartedKey(r[i], t); } else { GrantedEnd(r[i], t, ns.n); }
    KeyEnds(r, acts, i + 1, j, ns, t, Clock(r[i].time, ns) + 30000);
  }

  lemma StartedKey(s: State, t: nat)
    requires Inv(s) && t == At(s.nodes, Global).fence + 1 && HeldBy(Maintain(s).time, Maintain(s).nodes, Global, t)
    ensures KeyEndsBy(Maintain(s), Global, t, Clock(s.time, Global) + 30000)
  {
    hide Inv, LiveLeases, NewPruner, MaintainRefused, Clock;
    if Locked(s.time, s.nodes, Global) { HoldersAreOld(s, Global); }
  }

  lemma HoldersAreOld(s: State, ns: Ns)
    requires Inv(s) && Locked(s.time, s.nodes, ns)
    ensures At(s.nodes, ns).hold.token <= At(s.nodes, Global).fence
  {
    hide Contents, DocsOk, Registered, Protected, Exclusive, WritersOk, StagedKept, Chain, LeasesOk, PrunersOk, InstancesOk, At;
    if ns.Shard? { assert ShardHold(s.time, s.nodes, s.pruners, ns.n); }
  }

  lemma GrantedEnd(s: State, t: nat, n: nat)
    requires Inv(s) && t in s.pruners && PrunerEnabled(s, t, PGrant(n)) && HeldBy(Grant(s, t, n).time, Grant(s, t, n).nodes, Shard(n), t)
    ensures KeyEndsBy(Grant(s, t, n), Shard(n), t, Clock(s.time, Shard(n)) + 30000)
  {
    hide Inv, GrantRefused, Clock;
    PrunerFacts(s, t);
    if Locked(s.time, s.nodes, Shard(n)) { ShardBound(s, n); }
  }

  lemma ShardBound(s: State, n: nat)
    requires Inv(s) && Locked(s.time, s.nodes, Shard(n))
    ensures At(s.nodes, Shard(n)).hold.until <= Clock(s.time, Shard(n)) + 30000
  {
    hide Contents, DocsOk, Registered, Protected, Exclusive, WritersOk, StagedKept, Chain, LeasesOk, PrunersOk, HolderOk, Fences, InstancesOk, At;
    assert ShardHold(s.time, s.nodes, s.pruners, n);
  }

  /** Maintenance starts exactly when none is under way and no writer is at work.  The
      new pruner's token then holds the global key for 30 seconds unless it is released;
      a refused start leaves keys, fences and pruners as they are. */
  lemma StartedMaintenanceLasts(r: seq<State>, acts: seq<Action>, i: nat, j: nat)
    requires Trace(r, acts) && i < j <= |acts| && |r| == |acts| + 1 && acts[i] == StartPrune
    ensures var s, u, t := r[i], r[i + 1], At(r[i].nodes, Global).fence + 1;
            if Locked(s.time, s.nodes, Global) || exists id :: Writing(s.time, s.nodes, Global, id) then
              u.pruners == s.pruners && At(u.nodes, Global).hold == At(s.nodes, Global).hold && At(u.nodes, Global).fence == t - 1
            else
              && t !in s.pruners && u.pruners == s.pruners[t := Pruner(Clock(s.time, Global) / 1000, ReadActive, {}, {}, {}, {}, {}, {}, false)]
              && (NotReleased(acts, i + 1, j, Global, t) && Clock(r[j].time, Global) < Clock(s.time, Global) + 30000 ==>
                    HeldBy(r[j].time, r[j].nodes, Global, t))
  {
    hide Trace, Inv;
    TraceStep(r, acts, i);
    TraceInv(r, acts, i);
    var s, t := r[i], At(r[i].nodes, Global).fence + 1;
    NewPrunerId(s);
    RefusedWhen(s);
    MaintainedKey(s);
    if !MaintainRefused(s) && NotReleased(acts, i + 1, j, Global, t) && Clock(r[j].time, Global) < Clock(s.time, Global) + 30000 {
      KeyLasts(r, acts, i + 1, j, Global, t, Clock(s.time, Global) + 30000);
    }
  }

  lemma RefusedWhen(s: State)
    ensures MaintainRefused(s) <==> Locked(s.time, s.nodes, Global) || exists id :: Writing(s.time, s.nodes, Global, id)
  {
    if id :| Writing(s.time, s.nodes, Global, id) { assert AnyWriting(s.time, s.nodes, Global); }
  }

  lemma NewPrunerId(s: State)
    requires Inv(s)
    ensures At(s.nodes, Global).fence + 1 !in s.pruners
  {
    hide Contents, DocsOk, Registered, Protected, Exclusive, WritersOk, StagedKept, Chain, LeasesOk, PrunersOk, HolderOk, ShardHolds, InstancesOk, At;
  }

  lemma MaintainedKey(s: State)
    ensures var u, t := Maintain(s), At(s.nodes, Global).fence + 1;
            if MaintainRefused(s) then
              u.pruners == s.pruners && At(u.nodes, Global).hold == At(s.nodes, Global).hold && At(u.nodes, Global).fence == t - 1
            else
              && u.pruners == s.pruners[t := Pruner(Clock(s.time, Global) / 1000, ReadActive, {}, {}, {}, {}, {}, {}, false)]
              && HasKey(u, Global, t, Clock(s.time, Global) + 30000)
  {
    hide MaintainRefused, LiveLeases, Clock;
  }

  /** Renewing the global token gives it 30 more seconds; a pruner that has lost it stops
      and changes nothing else. */
  lemma RenewedTokenLasts(r: seq<State>, acts: seq<Action>, i: nat, j: nat, t: nat)
    requires Trace(r, acts) && i < j <= |acts| && |r| == |acts| + 1 && acts[i] in {PrunerAct(t, PFence), PrunerAct(t, PConfirm)}
    ensures var s, u := r[i], r[i + 1];
            if !HeldBy(s.time, s.nodes, Global, t) then
              t in s.pruners && u == s.(pruners := s.pruners[t := s.pruners[t].(stopped := true)])
            else
              NotReleased(acts, i + 1, j, Global, t) && Clock(r[j].time, Global) < Clock(s.time, Global) + 30000 ==>
                HeldBy(r[j].time, r[j].nodes, Global, t)
  {
    hide Trace, HeldBy;
    TraceStep(r, acts, i);
    FencedKey(r[i], t);
    if && HeldBy(r[i].time, r[i].nodes, Global, t)
       && NotReleased(acts, i + 1, j, Global, t) && Clock(r[j].time, Global) < Clock(r[i].time, Global) + 30000
    {
      KeyLasts(r, acts, i + 1, j, Global, t, Clock(r[i].time, Global) + 30000);
    }
  }

  lemma FencedKey(s: State, t: nat)
    requires t in s.pruners
    ensures if HeldBy(s.time, s.nodes, Global, t) then
              HasKey(Fence(s, t), Global, t, Clock(s.time, Global) + 30000) && HasKey(Confirm(s, t), Global, t, Clock(s.time, Global) + 30000)
            else
              Fence(s, t) == Confirm(s, t) == s.(pruners := s.pruners[t := s.pruners[t].(stopped := true)])
  {
    hide HeldBy, Clock;
  }

  /** A shard is granted exactly when its fence is not ahead, nobody else holds its key and
      no mirrored writer lease is valid there; the key then lasts for 30 seconds of the
      shard's clock.  A refused pruner stops. */
  lemma GrantedShardLasts(r: seq<State>, acts: seq<Action>, i: nat, j: nat, t: nat, n: nat)
    requires Trace(r, acts) && i < j <= |acts| && |r| == |acts| + 1 && acts[i] == PrunerAct(t, PGrant(n))
    ensures var s, u := r[i], r[i + 1];
            if || At(s.nodes, Shard(n)).fence > t
               || (Locked(s.time, s.nodes, Shard(n)) && !HeldBy(s.time, s.nodes, Shard(n), t))
               || (exists id :: Writing(s.time, s.nodes, Shard(n), id)) then
              t in s.pruners && u == s.(pruners := s.pruners[t := s.pruners[t].(stopped := true)])
            else
              && At(u.nodes, Shard(n)).fence == t
              && (NotReleased(acts, i + 1, j, Shard(n), t) && Clock(r[j].time, Shard(n)) < Clock(s.time, Shard(n)) + 30000 ==>
                    HeldBy(r[j].time, r[j].nodes, Shard(n), t))
  {
    hide Trace;
    TraceStep(r, acts, i);
    RefusedGrant(r[i], t, n);
    GrantedKey(r[i], t, n);
    if !GrantRefused(r[i], t, n) && NotReleased(acts, i + 1, j, Shard(n), t) && Clock(r[j].time, Shard(n)) < Clock(r[i].time, Shard(n)) + 30000 {
      KeyLasts(r, acts, i + 1, j, Shard(n), t, Clock(r[i].time, Shard(n)) + 30000);
    }
  }

  lemma RefusedGrant(s: State, t: nat, n: nat)
    ensures GrantRefused(s, t, n) <==>
              || At(s.nodes, Shard(n)).fence > t
              || (Locked(s.time, s.nodes, Shard(n)) && !HeldBy(s.time, s.nodes, Shard(n), t))
              || (exists id :: Writing(s.time, s.nodes, Shard(n), id))
  {
    hide At;
    if id :| Writing(s.time, s.nodes, Shard(n), id) { assert AnyWriting(s.time, s.nodes, Shard(n)); }
  }

  lemma GrantedKey(s: State, t: nat, n: nat)
    requires t in s.pruners
    ensures if GrantRefused(s, t, n) then Grant(s, t, n) == s.(pruners := s.pruners[t := s.pruners[t].(stopped := true)])
            else At(Grant(s, t, n).nodes, Shard(n)).fence == t && HasKey(Grant(s, t, n), Shard(n), t, Clock(s.time, Shard(n)) + 30000)
  {
    hide GrantRefused, Clock;
  }

  /** Releasing a key that is still held frees the namespace at once; otherwise nothing
      happens. */
  lemma ReleaseFrees(s: State, t: nat, ns: Ns)
    requires Enabled(s, PrunerAct(t, PRelease(ns)))
    ensures var u := Apply(s, PrunerAct(t, PRelease(ns)));
            && (HeldBy(s.time, s.nodes, ns, t) ==> !Locked(u.time, u.nodes, ns))
            && (!HeldBy(s.time, s.nodes, ns, t) ==> u == s)
            && (forall other :: other != ns ==> At(u.nodes, other) == At(s.nodes, other))
  {
    hide Clock;
  }

  // ----- mirrors -----

  /** What is read for a mirror is the writer's own deadline and the fence of that
      moment; without a valid lease, or in maintenance, nothing is read. */
  lemma DeadlineIsTheLease(s: State, id: nat, n: nat)
    requires Enabled(s, WriterAct(id, WDeadline(n)))
    ensures var u := Apply(s, WriterAct(id, WDeadline(n)));
            if Locked(s.time, s.nodes, Global) || !Writing(s.time, s.nodes, Global, id) then u == s
            else
              && u.writers[id].deadlines == s.writers[id].deadlines + {Deadline(n, At(s.nodes, Global).writers[id], At(s.nodes, Global).fence)}
              && u == s.(writers := s.writers[id := s.writers[id].(deadlines := u.writers[id].deadlines)])
  {
    hide Clock;
  }

  /** A mirror makes the operation a writer of the shard until the global deadline, and
      raises the shard's fence, unless the shard is in maintenance or fenced later, or the
      deadline has passed there; what is refused changes nothing. */
  lemma MirrorMakesWriter(s: State, id: nat, d: Deadline)
    requires Enabled(s, WriterAct(id, WMirror(d)))
    ensures var u, ns := Apply(s, WriterAct(id, WMirror(d))), Shard(d.shard);
            if Locked(s.time, s.nodes, ns) || d.until <= Clock(s.time, ns) || At(s.nodes, ns).fence > d.fence then u == s
            else
              && Writing(u.time, u.nodes, ns, id) && At(u.nodes, ns).writers[id] == d.until && At(u.nodes, ns).fence == d.fence
              && (forall x :: x != id ==> Writing(u.time, u.nodes, ns, x) == Writing(s.time, s.nodes, ns, x))
  {
    hide Clock;
  }
}
