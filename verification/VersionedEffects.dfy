/** What staging, committing and installing achieve when they are answered with success. */
module VersionedEffects {
  import opened VersionedStore
  import opened VersionedInvariant
  import opened VersionedSteps
  import opened VersionedRuns
  import opened VersionedLeases

  // ----- staging -----

  /** A record is staged exactly while the operation's lease in the record's namespace is
      valid.  It is then stored as planned and registered, a generation with the time of
      its first registration, and nothing else changes; otherwise nothing does. */
  lemma StageTakesEffect(s: State, id: nat, k: Key)
    requires Inv(s) && Enabled(s, WriterAct(id, WStage(k)))
    ensures StageReplyOf(s, id, k) == if !Locked(s.time, s.nodes, NsOf(k)) && Writing(s.time, s.nodes, NsOf(k), id) then Staged else LeaseExpired
    ensures var t := Apply(s, WriterAct(id, WStage(k)));
            if StageReplyOf(s, id, k) != Staged then t == s
            else
              && t.disk.store == s.disk.store[k := Content(s.docs, k)]
              && t.writers == s.writers[id := s.writers[id].(staged := s.writers[id].staged + {k})]
              && t.disk.registry == (if k.GenKey? then s.disk.registry else s.disk.registry + {k})
              && t.disk.scores == (if k.GenKey? && k.gen !in s.disk.scores then s.disk.scores[k.gen := Clock(s.time, Global) / 1000] else s.disk.scores)
              && t == s.(disk := t.disk, writers := t.writers)
  {
    hide Inv, Locked, Writing, Clock;
    StageNeverCorrupt(s, id, k);
    if k in s.disk.store { StoredContent(s, k); }
  }

  // ----- committing -----

  /** An operation without a receipt commits exactly while its lease is valid and its
      expected generation is still active; a valid lease alone rules maintenance out, and a
      finished preparation is never missing. */
  lemma CommitAnswers(s: State, id: nat)
    requires Inv(s) && Enabled(s, WriterAct(id, WCommit)) && id !in s.log.receipts
    ensures Decide(s, id).Done? <==> Writing(s.time, s.nodes, Global, id) && s.active == s.writers[id].expected
    ensures Decide(s, id) == Conflict <==> Writing(s.time, s.nodes, Global, id) && s.active != s.writers[id].expected
    ensures Decide(s, id) == InMaintenance <==> Locked(s.time, s.nodes, Global)
    ensures Decide(s, id) == Expired <==> !Locked(s.time, s.nodes, Global) && !Writing(s.time, s.nodes, Global, id)
  {
    hide Inv, Locked, Writing;
    CommitNeverMissing(s, id);
    if Writing(s.time, s.nodes, Global, id) { WritersExclude(s, id); }
  }

  /** A commit answered with a new receipt activates exactly what the receipt names: the
      planned generation with the counts of the plan, as the next commit of the chain and
      registered as of now, or the old one when nothing changed.  Any other answer, and
      any retry, changes nothing. */
  lemma CommitTakesEffect(s: State, id: nat)
    requires Inv(s) && Enabled(s, WriterAct(id, WCommit))
    ensures var t := Apply(s, WriterAct(id, WCommit));
            if id in s.log.receipts || !Decide(s, id).Done? then t == s
            else
              var r := Decide(s, id).receipt;
              && t.active == r.version && r.previous == s.active && t.log.receipts == s.log.receipts[id := r]
              && (s.writers[id].plan.Change? ==> r.version == id && r == s.writers[id].plan.result && r.version != s.active)
              && (!s.writers[id].plan.Change? ==> r == Receipt(s.active, s.active, 0, 0))
    ensures var t := Apply(s, WriterAct(id, WCommit));
            if t.active == s.active then t.disk == s.disk && t.log.commits == s.log.commits && t.log.committed == s.log.committed
            else
              && t.log.commits == s.log.commits + [Commit(s.active, t.active)]
              && s.active in s.log.committed && t.log.committed == s.log.committed[t.active := s.log.committed[s.active] + 1]
              && t.disk == s.disk.(scores := s.disk.scores[t.active := Clock(s.time, Global) / 1000])
  {
    hide Inv, Locked, Writing, Clock;
    WriterFacts(s, id);
    CommitStep(s, WriterAct(id, WCommit));
  }

  // ----- a whole write -----

  lemma PlanStays(s: State, a: Action, id: nat)
    requires Inv(s) && Enabled(s, a) && id in s.writers && !s.writers[id].plan.Unplanned?
    ensures id in Apply(s, a).writers && Apply(s, a).writers[id].plan == s.writers[id].plan
  {
    hide Inv, ReaderStep, PrunerStep, WriterStep, InstanceStep, Maintain, WriterEnabled, PrunerEnabled, InstanceEnabled;
    match a
    case Tick(_) =>
    case ReaderAct(x, r) => ReaderFrame(s, x, r);
    case WriterAct(x, w) => WriterPlan(s, x, w, id);
    case StartPrune => MaintainFrame(s);
    case PrunerAct(t, p) => PrunerFrame(s, t, p);
    case InstanceAct(i, v) => InstanceFrame(s, i, v);
  }

  lemma WriterPlan(s: State, x: nat, w: WriterAction, id: nat)
    requires Inv(s) && WriterEnabled(s, x, w) && id in s.writers && !s.writers[id].plan.Unplanned?
    ensures id in WriterStep(s, x, w).writers && WriterStep(s, x, w).writers[id].plan == s.writers[id].plan
  {
    hide Inv, PlanOk, CommitWrite, Locked, Writing, StageReplyOf, Put, Content, Clock, At;
    if w.WCommit? { CommitFrame(s, x); }
    if w.WAcquire? { WriterUsed(s, id); }
  }

  lemma WriterUsed(s: State, id: nat)
    requires Inv(s) && id in s.writers
    ensures id in s.used
  {
    hide Contents, DocsOk, Registered, Protected, Exclusive, StagedKept, Chain, LeasesOk, PrunersOk, HolderOk, ShardHolds, Fences, InstancesOk, Sourced;
    assert WriterOk(s.docs, s.log.committed, s.used, id, s.writers[id]);
  }

  lemma {:induction false} PlanLasts(r: seq<State>, acts: seq<Action>, i: nat, j: nat, id: nat, plan: Plan)
    requires Trace(r, acts) && i <= j <= |acts| <= |r| && id in r[i].writers && r[i].writers[id].plan == plan && !plan.Unplanned?
    ensures id in r[j].writers && r[j].writers[id].plan == plan
    decreases j - i
  {
    hide Enabled, Apply, Trace, Inv;
    if i < j {
      PlanLasts(r, acts, i, j - 1, id, plan);
      TraceStep(r, acts, j - 1);
      TraceInv(r, acts, j - 1);
      PlanStays(r[j - 1], acts[j - 1], id);
    }
  }

  /** A write from beginning to end: whoever acquired a writer lease, planned, staged
      everything and comes to commit within the lease's time finds the planned documents
      stored.  If its expected generation is still active, the commit activates the new
      generation, complete, with the planned counts; if not, it changes nothing. */
  lemma WriteArrives(r: seq<State>, acts: seq<Action>, i: nat, p: nat, j: nat, id: nat, expected: nat, d: nat, more: Docs, toStage: set<Key>, result: Receipt)
    requires Trace(r, acts) && i < p < j < |acts| && |r| == |acts| + 1
    requires acts[i] == WriterAct(id, WAcquire(expected, d)) && !Locked(r[i].time, r[i].nodes, Global) && r[i].active == expected
    requires acts[p] == WriterAct(id, WChange(more, toStage, result)) && acts[j] == WriterAct(id, WCommit)
    requires LeftToRun(r, acts, i + 1, j, id) && Clock(r[j].time, Global) < Clock(r[i].time, Global) + d && id !in r[j].log.receipts
    ensures forall k :: k in more ==> k in r[j].disk.store && r[j].disk.store[k] == more[k]
    ensures if r[j].active == expected then
              && r[j + 1].active == id && id in r[j + 1].log.receipts && r[j + 1].log.receipts[id] == result
              && Preserves(r[j], r[j + 1], id)
            else r[j + 1] == r[j]
  {
    hide Trace, Inv, Preserves;
    AcquiredWriterLasts(r, acts, i, j, id, expected, d);
    TraceStep(r, acts, j);
    TraceInv(r, acts, j);
    TraceStep(r, acts, p);
    TraceInv(r, acts, p);
    PlanLasts(r, acts, p + 1, j, id, Change(toStage, result));
    DocsOnlyGrow(r, acts, p + 1, j);
    forall k | k in more ensures k in r[j].disk.store && r[j].disk.store[k] == more[k] {
      PlannedStored(r[j], id, k, more);
    }
    CommitAnswers(r[j], id);
    CommitTakesEffect(r[j], id);
    if r[j].active == expected {
      TraceInv(r, acts, j + 1);
      ActivePreserved(r[j], r[j + 1]);
    }
  }

  /** A write that changed nothing commits with an empty receipt and leaves the active
      generation. */
  lemma UnchangedWriteArrives(r: seq<State>, acts: seq<Action>, i: nat, p: nat, j: nat, id: nat, expected: nat, d: nat)
    requires Trace(r, acts) && i < p < j < |acts| && |r| == |acts| + 1
    requires acts[i] == WriterAct(id, WAcquire(expected, d)) && !Locked(r[i].time, r[i].nodes, Global) && r[i].active == expected
    requires acts[p] == WriterAct(id, WNothing) && acts[j] == WriterAct(id, WCommit)
    requires LeftToRun(r, acts, i + 1, j, id) && Clock(r[j].time, Global) < Clock(r[i].time, Global) + d && id !in r[j].log.receipts
    ensures r[j + 1].active == r[j].active && r[j + 1].disk == r[j].disk
    ensures r[j].active == expected ==> id in r[j + 1].log.receipts && r[j + 1].log.receipts[id] == Receipt(expected, expected, 0, 0)
  {
    hide Trace, Inv;
    AcquiredWriterLasts(r, acts, i, j, id, expected, d);
    TraceStep(r, acts, j);
    TraceInv(r, acts, j);
    TraceStep(r, acts, p);
    PlanLasts(r, acts, p + 1, j, id, Unchanged);
    CommitAnswers(r[j], id);
    CommitTakesEffect(r[j], id);
  }

  /** What a valid writer staged is stored as it was prepared. */
  lemma PlannedStored(s: State, id: nat, k: Key, more: Docs)
    requires Inv(s) && Writing(s.time, s.nodes, Global, id) && id in s.writers && k in s.writers[id].staged
    requires k in more && k in s.docs && s.docs[k] == more[k] && more[k].RefDoc?
    ensures k in s.disk.store && s.disk.store[k] == more[k]
  {
    hide Registered, Protected, Exclusive, WritersOk, Chain, LeasesOk, PrunersOk, HolderOk, ShardHolds, Fences, InstancesOk, Writing;
    assert DocOk(s.docs, s.writers, k);
  }

  lemma ActivePreserved(s: State, t: State)
    requires Inv(t) && t.docs == s.docs
    ensures Preserves(s, t, t.active)
  {
    hide DocsOk, Registered, Exclusive, WritersOk, StagedKept, Chain, LeasesOk, PrunersOk, HolderOk, ShardHolds, Fences, InstancesOk, Intact, Reaches;
    IntactReaches(t.docs, t.disk.store, t.active);
  }

  // ----- serving -----

  lemma InstanceStays(s: State, a: Action, x: nat)
    requires Enabled(s, a) && x in s.instances && !(a.InstanceAct? && a.i == x)
    ensures x in Apply(s, a).instances && Apply(s, a).instances[x] == s.instances[x]
  {
    hide ReaderStep, PrunerStep, WriterStep, InstanceStep, Maintain, WriterEnabled, PrunerEnabled, InstanceEnabled;
    match a
    case Tick(_) =>
    case ReaderAct(y, r) => ReaderFrame(s, y, r);
    case WriterAct(y, w) => WriterFrame(s, y, w);
    case StartPrune => MaintainFrame(s);
    case PrunerAct(t, p) => PrunerFrame(s, t, p);
    case InstanceAct(i, v) => OtherInstance(s, i, v, x);
  }

  lemma OtherInstance(s: State, i: nat, v: InstanceAction, x: nat)
    requires InstanceEnabled(s, i, v) && x in s.instances && i != x
    ensures x in InstanceStep(s, i, v).instances && InstanceStep(s, i, v).instances[x] == s.instances[x]
  {
    hide Locked, Clock;
  }

  lemma {:induction false} InstanceLasts(r: seq<State>, acts: seq<Action>, i: nat, j: nat, x: nat)
    requires Trace(r, acts) && i <= j <= |acts| <= |r| && x in r[i].instances
    requires forall y {:trigger acts[y]} :: i <= y < j ==> !(acts[y].InstanceAct? && acts[y].i == x)
    ensures x in r[j].instances && r[j].instances[x] == r[i].instances[x]
    decreases j - i
  {
    hide Enabled, Apply, Trace;
    if i < j {
      InstanceLasts(r, acts, i, j - 1, x);
      TraceStep(r, acts, j - 1);
      InstanceStays(r[j - 1], acts[j - 1], x);
    }
  }

  /** A started process serves and builds nothing until it does something itself, and can
      then pin with any fresh lease. */
  lemma StartedProcessIsIdle(r: seq<State>, acts: seq<Action>, i: nat, j: nat, x: nat, id: nat, d: nat)
    requires Trace(r, acts) && i < j <= |acts| && |r| == |acts| + 1 && acts[i] == InstanceAct(x, IStart)
    requires forall y {:trigger acts[y]} :: i < y < j ==> !(acts[y].InstanceAct? && acts[y].i == x)
    ensures x in r[j].instances && r[j].instances[x] == Instance(Empty, Empty)
    ensures id !in r[j].used ==> Enabled(r[j], InstanceAct(x, IPin(id, d)))
  {
    hide Trace;
    TraceStep(r, acts, i);
    InstanceLasts(r, acts, i + 1, j, x);
  }

  /** A refresh that pinned outside maintenance and then installs makes its process serve
      the generation that was active when it pinned; one that gives up leaves what was
      served. */
  lemma RefreshServesWhatItPinned(r: seq<State>, acts: seq<Action>, i: nat, j: nat, x: nat, id: nat, d: nat)
    requires Trace(r, acts) && i < j < |acts| && |r| == |acts| + 1
    requires acts[i] == InstanceAct(x, IPin(id, d)) && !Locked(r[i].time, r[i].nodes, Global)
    requires forall y {:trigger acts[y]} :: i < y < j ==> !(acts[y].InstanceAct? && acts[y].i == x)
    ensures x in r[i].instances && x in r[j + 1].instances
    ensures acts[j] == InstanceAct(x, IInstall) ==> r[j + 1].instances[x] == Instance(Gen(r[i].active), Empty)
    ensures acts[j] == InstanceAct(x, IGiveUp) ==> r[j + 1].instances[x] == Instance(r[i].instances[x].serving, Empty)
  {
    hide Trace, Locked;
    TraceStep(r, acts, i);
    InstanceLasts(r, acts, i + 1, j, x);
    TraceStep(r, acts, j);
    if !(acts[j].InstanceAct? && acts[j].i == x) { InstanceStays(r[j], acts[j], x); }
  }
}
