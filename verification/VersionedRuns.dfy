/** What holds in every run of the versioned store. */
module VersionedRuns {
  import opened VersionedStore
  import opened VersionedInvariant
  import opened VersionedSteps

  ghost predicate Step(s: State, t: State) {
    exists a :: Enabled(s, a) && t == Apply(s, a)
  }

  ghost predicate StepAt(r: seq<State>, i: nat)
    requires i + 1 < |r|
  {
    Step(r[i], r[i + 1])
  }

  /** A run from a newly created collection. */
  ghost predicate Run(r: seq<State>) {
    r != [] && Initial(r[0]) && forall i {:trigger StepAt(r, i)} :: 0 <= i < |r| - 1 ==> StepAt(r, i)
  }

  lemma InitialKeeps(s: State)
    requires Initial(s)
    ensures Inv(s)
  {
    assert Numbered(s.docs, s.log, 0);
    assert GenAt(s.log.commits, 0) == 0;
    assert InChain(s.log.commits, 0);
    forall n ensures ShardHold(s.time, s.nodes, s.pruners, n) { }
  }

  lemma {:induction false} RunKeeps(r: seq<State>, i: nat)
    requires Run(r) && i < |r|
    ensures Inv(r[i])
  {
    hide Inv, Initial, Enabled, Apply;
    if i == 0 {
      InitialKeeps(r[0]);
    } else {
      RunKeeps(r, i - 1);
      assert StepAt(r, i - 1);
      var a :| Enabled(r[i - 1], a) && r[i] == Apply(r[i - 1], a);
      StepKeeps(r[i - 1], a);
    }
  }

  // ----- retention -----

  /** At every moment the active generation and every generation under an unexpired
      reader lease have all their records stored, each with the content it was
      prepared with. */
  lemma RetainsReachable(r: seq<State>, i: nat)
    requires Run(r) && i < |r|
    ensures var s := r[i];
            forall k :: Reaches(s.docs, s.active, k) ==> k in s.disk.store && s.disk.store[k] == Content(s.docs, k)
    ensures var s := r[i];
            forall id, k :: Reading(s.time, s.leases, id) && Reaches(s.docs, s.leases[id].gen, k) ==>
                              k in s.disk.store && s.disk.store[k] == Content(s.docs, k)
  {
    hide Run, DocsOk, Registered, Exclusive, WritersOk, StagedKept, Chain, LeasesOk, PrunersOk, HolderOk, ShardHolds, Fences, InstancesOk, Intact, Reaches;
    RunKeeps(r, i);
    var s := r[i];
    IntactReaches(s.docs, s.disk.store, s.active);
    forall id, k | Reading(s.time, s.leases, id) && Reaches(s.docs, s.leases[id].gen, k) ensures k in s.disk.store {
      IntactReaches(s.docs, s.disk.store, s.leases[id].gen);
    }
  }

  /** Every lease valid in `t` that was opened before is valid in `s`, with the same
      generation. */
  ghost predicate LeasesShrink(s: State, t: State) {
    && s.used <= t.used
    && forall id {:trigger Reading(t.time, t.leases, id)} :: id in s.used && Reading(t.time, t.leases, id) ==>
         Reading(s.time, s.leases, id) && t.leases[id].gen == s.leases[id].gen
  }

  lemma LeaseStep(s: State, a: Action)
    requires Enabled(s, a)
    ensures LeasesShrink(s, Apply(s, a))
  {
    hide ReaderStep, PrunerStep, WriterStep, InstanceStep, WriterEnabled, PrunerEnabled, InstanceEnabled, Maintain;
    match a
    case Tick(_) =>
    case ReaderAct(id, r) => ReaderFrame(s, id, r);
    case WriterAct(id, w) => WriterFrame(s, id, w);
    case StartPrune => MaintainFrame(s);
    case PrunerAct(t, p) => PrunerFrame(s, t, p);
    case InstanceAct(i, v) => InstanceFrame(s, i, v);
  }

  // What each kind of client leaves alone.

  lemma ReaderFrame(s: State, id: nat, r: ReaderAction)
    requires r.RAcquire? ==> id !in s.used
    ensures var t := ReaderStep(s, id, r);
            t == s.(leases := t.leases, used := t.used) && LeasesShrink(s, t)
  {
    hide At, Locked;
  }

  lemma WriterFrame(s: State, id: nat, w: WriterAction)
    requires WriterEnabled(s, id, w)
    ensures var t := WriterStep(s, id, w);
            && t == s.(nodes := t.nodes, docs := t.docs, disk := t.disk, writers := t.writers, used := t.used, log := t.log, active := t.active)
            && s.used <= t.used && (w.WCommit? || (t.log == s.log && t.active == s.active))
            && (forall k :: k in s.disk.store ==> k in t.disk.store)
  {
    hide PlanOk, Stage, CommitWrite, OpenWriter, RenewWriter, CloseWriter, Mirror, ReadDeadline;
    if w.WStage? { StageFrame(s, id, w.key); }
    if w.WCommit? { CommitFrame(s, id); }
    if w.WAcquire? || w.WRenew? || w.WClose? || w.WMirror? || w.WDeadline? { LeaseFrame(s, id, w); }
  }

  lemma LeaseFrame(s: State, id: nat, w: WriterAction)
    requires WriterEnabled(s, id, w) && (w.WAcquire? || w.WRenew? || w.WClose? || w.WMirror? || w.WDeadline?)
    ensures var t := WriterStep(s, id, w);
            t == s.(nodes := t.nodes, writers := t.writers, used := t.used) && s.used <= t.used
  {
    hide At, Locked, Writing, Clock;
  }

  lemma StageFrame(s: State, id: nat, k: Key)
    requires id in s.writers
    ensures var t := Stage(s, id, k);
            t == s.(disk := t.disk, writers := t.writers) && forall k :: k in s.disk.store ==> k in t.disk.store
  {
    hide StageReplyOf, Content;
  }

  lemma CommitFrame(s: State, id: nat)
    requires id in s.writers
    ensures var t := CommitWrite(s, id);
            t == s.(disk := t.disk, log := t.log, active := t.active) && t.disk.store == s.disk.store
  {
    hide Decide, CommittedLog;
  }

  lemma MaintainFrame(s: State)
    ensures var t := Maintain(s);
            t == s.(nodes := t.nodes, leases := t.leases, pruners := t.pruners) && LeasesShrink(s, t)
  {
    hide MaintainedNode, MaintainRefused, NewPruner;
  }

  lemma PrunerFrame(s: State, t: nat, p: PrunerAction)
    requires t in s.pruners
    ensures var u := PrunerStep(s, t, p);
            && u == s.(nodes := u.nodes, pruners := u.pruners, disk := u.disk)
            && (p.PDelete? || u.disk == s.disk)
  {
    hide Fence, Confirm, Grant, Release, KeepActive, KeepLeased, KeepRecent, ReadManifest, ListDead, Delete;
    match p
    case PFence => FenceFrame(s, t);
    case PConfirm => ConfirmFrame(s, t);
    case PGrant(shard) => GrantFrame(s, t, shard);
    case PRelease(ns) => ReleaseFrame(s, t, ns);
    case _ => PrunerReads(s, t, p);
  }

  lemma FenceFrame(s: State, t: nat)
    requires t in s.pruners
    ensures var u := Fence(s, t); u == s.(nodes := u.nodes, pruners := u.pruners)
  {
    hide At, HeldBy, Clock;
  }

  lemma ConfirmFrame(s: State, t: nat)
    requires t in s.pruners
    ensures var u := Confirm(s, t); u == s.(nodes := u.nodes, pruners := u.pruners)
  {
    hide At, HeldBy, Clock;
    FenceFrame(s, t);
  }

  lemma GrantFrame(s: State, t: nat, shard: nat)
    requires t in s.pruners
    ensures var u := Grant(s, t, shard); u == s.(nodes := u.nodes, pruners := u.pruners)
  {
    hide At, GrantRefused, Clock, Unexpired;
  }

  lemma ReleaseFrame(s: State, t: nat, ns: Ns)
    ensures var u := Release(s, t, ns); u == s.(nodes := u.nodes)
  {
    hide At, HeldBy;
  }

  lemma DeleteFrame(s: State, t: nat, ns: Ns, batch: set<Key>)
    requires t in s.pruners
    ensures var u := PrunerStep(s, t, PDelete(ns, batch));
            forall k :: k in s.disk.store && k !in u.disk.store ==> k in batch && HeldBy(s.time, s.nodes, ns, t)
  {
    hide HeldBy;
  }

  lemma InstanceFrame(s: State, i: nat, v: InstanceAction)
    requires InstanceEnabled(s, i, v)
    ensures var t := InstanceStep(s, i, v);
            t == s.(instances := t.instances, leases := t.leases, used := t.used) && LeasesShrink(s, t)
  {
    hide At, Locked;
  }

  /** Whoever still holds an unexpired lease can rely on everything read under it: the
      generation was complete the whole time. */
  lemma {:induction false} ReaderNeverLosesData(r: seq<State>, i: nat, j: nat, id: nat)
    requires Run(r) && i <= j < |r| && id in r[i].used && Reading(r[j].time, r[j].leases, id)
    ensures forall n :: i <= n <= j ==>
              && Reading(r[n].time, r[n].leases, id) && r[n].leases[id].gen == r[j].leases[id].gen
              && Intact(r[n].docs, r[n].disk.store, r[j].leases[id].gen)
    decreases j - i
  {
    hide Inv, Enabled, Apply, Intact, Run;
    UsedGrows(r, i, j);
    RunKeeps(r, j);
    ProtectsReader(r[j], id);
    if i < j {
      RunStep(r, j - 1);
      RunKeeps(r, j - 1);
      var a :| Enabled(r[j - 1], a) && r[j] == Apply(r[j - 1], a);
      UsedGrows(r, i, j - 1);
      LeaseStep(r[j - 1], a);
      ReaderNeverLosesData(r, i, j - 1, id);
    }
  }

  lemma RunStep(r: seq<State>, i: nat)
    requires Run(r) && i + 1 < |r|
    ensures exists a :: Enabled(r[i], a) && r[i + 1] == Apply(r[i], a)
  {
    assert StepAt(r, i);
  }

  lemma {:induction false} UsedGrows(r: seq<State>, i: nat, j: nat)
    requires Run(r) && i <= j < |r|
    ensures r[i].used <= r[j].used
    decreases j - i
  {
    hide Inv, Enabled, Apply, Run;
    if i < j {
      UsedGrows(r, i, j - 1);
      RunStep(r, j - 1);
      var a :| Enabled(r[j - 1], a) && r[j] == Apply(r[j - 1], a);
      LeaseStep(r[j - 1], a);
    }
  }

  lemma ProtectsReader(s: State, id: nat)
    requires Inv(s) && Reading(s.time, s.leases, id)
    ensures Intact(s.docs, s.disk.store, s.leases[id].gen)
  {
    hide Contents, DocsOk, Registered, Exclusive, WritersOk, StagedKept, Chain, LeasesOk, PrunersOk, HolderOk, ShardHolds, Fences, InstancesOk, Intact;
  }

  // ----- deletion -----

  /** A record disappears only through a pruner whose token is held both in the
      record's namespace and in the global one, whatever the clocks show. */
  lemma DeletedUnderBothTokens(s: State, a: Action, k: Key)
    requires Inv(s) && Enabled(s, a) && k in s.disk.store && k !in Apply(s, a).disk.store
    ensures a.PrunerAct? && a.p.PDelete? && k in a.p.batch && NsOf(k) == a.p.ns && Sweeping(s, a.t) && a.p.batch <= s.pruners[a.t].dead
    ensures HeldBy(s.time, s.nodes, NsOf(k), a.t) && HeldBy(s.time, s.nodes, Global, a.t)
  {
    hide Inv, ReaderStep, PrunerStep, WriterStep, InstanceStep, Maintain, WriterEnabled, InstanceEnabled, Sweeping, HeldBy, At;
    match a
    case Tick(_) =>
    case ReaderAct(id, r) => ReaderFrame(s, id, r);
    case WriterAct(id, w) => WriterFrame(s, id, w);
    case StartPrune => MaintainFrame(s);
    case PrunerAct(t, p) =>
      PrunerFrame(s, t, p);
      DeleteFrame(s, t, p.ns, p.batch);
      DeleteNeedsGlobalToken(s, t, p.ns);
    case InstanceAct(i, v) => InstanceFrame(s, i, v);
  }

  /** A deleted generation was neither active nor leased, and was registered more than
      the retention period ago. */
  lemma DeletedGenerationIsOld(s: State, a: Action, g: nat)
    requires Inv(s) && Enabled(s, a) && GenKey(g) in s.disk.store && GenKey(g) !in Apply(s, a).disk.store
    ensures g != s.active && forall id :: Reading(s.time, s.leases, id) ==> s.leases[id].gen != g
    ensures g in s.disk.scores && s.disk.scores[g] * 1000 < Clock(s.time, Global) - 86400 * 1000
  {
    hide At, Contents, DocsOk, Protected, Exclusive, WritersOk, StagedKept, Chain, LeasesOk, PrunersOk, HolderOk, ShardHolds, Fences, InstancesOk, Apply, HeldBy, WriterEnabled;
    DeletedUnderBothTokens(s, a, GenKey(g));
    PrunerFacts(s, a.t);
  }

  // ----- what scripts never answer -----

  /** Staging never finds other content under a key. */
  lemma StageNeverCorrupt(s: State, id: nat, k: Key)
    requires Inv(s) && WriterEnabled(s, id, WStage(k))
    ensures StageReplyOf(s, id, k) != Corrupt
  {
    hide Inv;
    if k in s.disk.store { StoredContent(s, k); }
  }

  /** A commit never finds its generation missing. */
  lemma CommitNeverMissing(s: State, id: nat)
    requires Inv(s) && WriterEnabled(s, id, WCommit)
    ensures Decide(s, id) != Missing
  {
    hide Inv, At;
    if Writing(s.time, s.nodes, Global, id) && s.active == s.writers[id].expected { TargetIntact(s, id); }
  }

  // ----- the commit chain -----

  /** The log only grows. */
  ghost predicate LogGrows(s: State, t: State) {
    && s.log.commits <= t.log.commits
    && (forall op :: op in s.log.receipts ==> op in t.log.receipts && t.log.receipts[op] == s.log.receipts[op])
    && (forall g :: g in s.log.committed ==> g in t.log.committed && t.log.committed[g] == s.log.committed[g])
  }

  /** Either the active generation stays, or one commit is added whose predecessor was
      active immediately before and whose operation had no receipt yet. */
  ghost predicate OneCommit(s: State, t: State) {
    || (t.active == s.active && t.log.commits == s.log.commits && t.log.committed == s.log.committed)
    || (&& t.active != s.active && t.log.commits == s.log.commits + [Commit(s.active, t.active)]
        && t.active !in s.log.committed && t.active !in s.log.receipts && t.active in t.log.receipts
        && s.active in s.log.committed && t.log.committed == s.log.committed[t.active := s.log.committed[s.active] + 1])
  }

  lemma CommitStep(s: State, a: Action)
    requires Inv(s) && Enabled(s, a)
    ensures LogGrows(s, Apply(s, a)) && OneCommit(s, Apply(s, a))
  {
    hide Inv, ReaderStep, PrunerStep, WriterStep, InstanceStep, WriterEnabled, PrunerEnabled, InstanceEnabled, Maintain, OneCommit, LogGrows;
    NoCommit(s, Apply(s, a));
    match a
    case Tick(_) =>
    case ReaderAct(id, r) => ReaderFrame(s, id, r);
    case WriterAct(id, w) =>
      WriterFrame(s, id, w);
      if w.WCommit? { CommitEffect(s, id); }
    case StartPrune => MaintainFrame(s);
    case PrunerAct(t, p) => PrunerFrame(s, t, p);
    case InstanceAct(i, v) => InstanceFrame(s, i, v);
  }

  lemma NoCommit(s: State, t: State)
    ensures t.log == s.log && t.active == s.active ==> LogGrows(s, t) && OneCommit(s, t)
  {
  }

  lemma CommitEffect(s: State, id: nat)
    requires Inv(s) && WriterEnabled(s, id, WCommit)
    ensures LogGrows(s, WriterStep(s, id, WCommit)) && OneCommit(s, WriterStep(s, id, WCommit))
  {
    hide Inv, Locked, Writing, At, Chain;
    ActiveCommitted(s);
    WriterFacts(s, id);
    if id !in s.log.receipts && id in s.log.committed { ReceiptOf(s, id); }
  }

  lemma ReceiptOf(s: State, g: nat)
    requires Inv(s) && g in s.log.committed && g != 0
    ensures g in s.log.receipts
  {
    hide Contents, DocsOk, Registered, Protected, Exclusive, WritersOk, StagedKept, LeasesOk, PrunersOk, HolderOk, ShardHolds, Fences, InstancesOk, Chain;
    HasReceipt(s.docs, s.active, s.log, g);
  }

  /** Between two moments of a run the log only grows. */
  lemma {:induction false} LogOnlyGrows(r: seq<State>, i: nat, j: nat)
    requires Run(r) && i <= j < |r|
    ensures LogGrows(r[i], r[j])
    decreases j - i
  {
    hide Inv, Enabled, Apply, Run;
    if i < j {
      LogOnlyGrows(r, i, j - 1);
      RunStep(r, j - 1);
      RunKeeps(r, j - 1);
      var a :| Enabled(r[j - 1], a) && r[j] == Apply(r[j - 1], a);
      CommitStep(r[j - 1], a);
    }
  }

  /** In every run the changed commits form one chain: each follows the one that was
      active before it, with the next sequence number, and no operation appears twice. */
  lemma CommitsFormOneChain(r: seq<State>, i: nat)
    requires Run(r) && i < |r|
    ensures var log := r[i].log;
            && r[i].active == GenAt(log.commits, |log.commits|)
            && (forall n :: 0 <= n < |log.commits| ==>
                  && log.commits[n].previous == GenAt(log.commits, n)
                  && log.commits[n].previous in log.committed && log.commits[n].version in log.committed
                  && log.committed[log.commits[n].version] == log.committed[log.commits[n].previous] + 1)
            && (forall m, n :: 0 <= m < n < |log.commits| ==> log.commits[m].version != log.commits[n].version)
  {
    hide Run, Contents, DocsOk, Registered, Protected, Exclusive, WritersOk, StagedKept, LeasesOk, PrunersOk, HolderOk, ShardHolds, Fences, InstancesOk, InChain, Known;
    RunKeeps(r, i);
    var s := r[i];
    forall n | 0 <= n < |s.log.commits|
      ensures && s.log.commits[n].previous == GenAt(s.log.commits, n)
              && s.log.commits[n].previous in s.log.committed && s.log.commits[n].version in s.log.committed
              && s.log.committed[s.log.commits[n].version] == s.log.committed[s.log.commits[n].previous] + 1
    {
      assert Recorded(s.log, n) && Numbered(s.docs, s.log, n) && Numbered(s.docs, s.log, n + 1);
    }
    forall m, n | 0 <= m < n < |s.log.commits| ensures s.log.commits[m].version != s.log.commits[n].version {
      assert Numbered(s.docs, s.log, m + 1) && Numbered(s.docs, s.log, n + 1);
    }
  }

  /** A retried commit answers with the first receipt, whatever was committed since,
      and changes nothing. */
  lemma RetriesReturnTheReceipt(r: seq<State>, i: nat, j: nat, op: nat)
    requires Run(r) && i <= j < |r| && op in r[i].log.receipts && op in r[j].writers
    ensures Decide(r[j], op) == Done(r[i].log.receipts[op]) && CommitWrite(r[j], op) == r[j]
  {
    hide Run;
    LogOnlyGrows(r, i, j);
  }

  // ----- serving -----

  ghost predicate ServesAtLeast(s: State, i: nat, sequence: nat) {
    i in s.instances && s.instances[i].serving.Gen? && s.instances[i].serving.g in s.log.committed &&
    s.log.committed[s.instances[i].serving.g] >= sequence
  }

  lemma ServingStep(s: State, a: Action, i: nat, sequence: nat)
    requires Inv(s) && Enabled(s, a) && ServesAtLeast(s, i, sequence)
    ensures ServesAtLeast(Apply(s, a), i, sequence)
  {
    hide Inv, ReaderStep, PrunerStep, WriterStep, InstanceStep, WriterEnabled, PrunerEnabled, InstanceEnabled, Maintain, OneCommit;
    CommitStep(s, a);
    InstanceInv(s, i);
    match a
    case Tick(_) =>
    case ReaderAct(id, r) => ReaderFrame(s, id, r);
    case WriterAct(id, w) => WriterFrame(s, id, w);
    case StartPrune => MaintainFrame(s);
    case PrunerAct(t, p) => PrunerFrame(s, t, p);
    case InstanceAct(x, v) =>
      InstanceFrame(s, x, v);
      InstallStep(s, x, v, i);
  }

  lemma InstallStep(s: State, x: nat, v: InstanceAction, i: nat)
    requires InstanceEnabled(s, x, v) && i in s.instances
    ensures var t := InstanceStep(s, x, v);
            i in t.instances && (t.instances[i].serving == s.instances[i].serving || t.instances[i].serving == s.instances[i].pinned)
            && (t.instances[i].serving.Gen? || s.instances[i].serving.Empty?)
  {
    hide Locked;
  }

  /** The sequence an instance serves never decreases. */
  lemma {:induction false} ServingNeverDecreases(r: seq<State>, i: nat, j: nat, x: nat, sequence: nat)
    requires Run(r) && i <= j < |r| && ServesAtLeast(r[i], x, sequence)
    ensures ServesAtLeast(r[j], x, sequence)
    decreases j - i
  {
    hide Inv, Enabled, Apply, Run, ServesAtLeast;
    if i < j {
      ServingNeverDecreases(r, i, j - 1, x, sequence);
      RunStep(r, j - 1);
      RunKeeps(r, j - 1);
      var a :| Enabled(r[j - 1], a) && r[j] == Apply(r[j - 1], a);
      ServingStep(r[j - 1], a, x, sequence);
    }
  }

  /** WaitForVersion succeeds when the serving sequence has reached the sequence read
      from the version's commit record; the serving generation is then that commit or
      a later one of the chain, at that moment and ever after. */
  lemma WaitMeansCommittedOrLater(r: seq<State>, i: nat, j: nat, x: nat, version: nat)
    requires Run(r) && i <= j < |r| && version in r[i].log.committed && ServesAtLeast(r[i], x, r[i].log.committed[version])
    ensures x in r[j].instances
    ensures exists m, n :: 0 <= m <= n <= |r[j].log.commits| && r[j].instances[x].serving == Gen(GenAt(r[j].log.commits, n)) &&
                             GenAt(r[j].log.commits, m) == version
  {
    hide Inv, Run;
    ServingNeverDecreases(r, i, j, x, r[i].log.committed[version]);
    LogOnlyGrows(r, i, j);
    RunKeeps(r, j);
    var m := IndexOf(r[j], version);
    var n := IndexOf(r[j], r[j].instances[x].serving.g);
  }

  lemma IndexOf(s: State, g: nat) returns (i: nat)
    requires Inv(s) && g in s.log.committed
    ensures i <= |s.log.commits| && GenAt(s.log.commits, i) == g && s.log.committed[g] == i + 1
  {
    hide Contents, DocsOk, Registered, Protected, Exclusive, WritersOk, StagedKept, LeasesOk, PrunersOk, HolderOk, ShardHolds, Fences, InstancesOk, Known;
    assert InChain(s.log.commits, g);
    i :| 0 <= i <= |s.log.commits| && GenAt(s.log.commits, i) == g;
    assert Numbered(s.docs, s.log, i);
  }

  // ----- fences -----

  /** No fence ever goes back. */
  lemma FencesNeverDecrease(s: State, a: Action, ns: Ns)
    requires Inv(s) && Enabled(s, a)
    ensures At(Apply(s, a).nodes, ns).fence >= At(s.nodes, ns).fence
  {
    hide Inv, ReaderStep, PrunerStep, WriterStep, InstanceStep, WriterEnabled, PrunerEnabled, InstanceEnabled, Maintain, At;
    match a
    case Tick(_) =>
    case ReaderAct(id, r) => ReaderFrame(s, id, r);
    case WriterAct(id, w) => WriterFence(s, id, w, ns);
    case StartPrune => MaintainFence(s, ns);
    case PrunerAct(t, p) => PrunerFence(s, t, p, ns);
    case InstanceAct(i, v) => InstanceFrame(s, i, v);
  }

  lemma MaintainFence(s: State, ns: Ns)
    ensures At(Maintain(s).nodes, ns).fence >= At(s.nodes, ns).fence
  {
    hide MaintainRefused, Unexpired, Clock, LiveLeases, NewPruner;
  }

  lemma WriterFence(s: State, id: nat, w: WriterAction, ns: Ns)
    requires WriterEnabled(s, id, w)
    ensures At(WriterStep(s, id, w).nodes, ns).fence >= At(s.nodes, ns).fence
  {
    hide PlanOk, Locked, Writing, Clock, Stage, CommitWrite;
    if w.WStage? { StageFrame(s, id, w.key); }
    if w.WCommit? { CommitFrame(s, id); }
  }

  lemma PrunerFence(s: State, t: nat, p: PrunerAction, ns: Ns)
    requires t in s.pruners
    ensures At(PrunerStep(s, t, p).nodes, ns).fence >= At(s.nodes, ns).fence
  {
    hide Fence, Confirm, Grant, Release, KeepActive, KeepLeased, KeepRecent, ReadManifest, ListDead, Delete, Stop, At;
    match p
    case PFence => FenceNodes(s, t, ns);
    case PConfirm => ConfirmNodes(s, t); FenceNodes(s, t, ns);
    case PGrant(shard) => GrantNodes(s, t, shard, ns);
    case PRelease(n) => ReleaseNodes(s, t, n, ns);
    case _ => PrunerReads(s, t, p);
  }

  // What the lock scripts do to one node.

  lemma FenceNodes(s: State, t: nat, ns: Ns)
    requires t in s.pruners
    ensures At(Fence(s, t).nodes, ns) == At(s.nodes, ns) ||
            (ns == Global && HeldBy(s.time, s.nodes, Global, t) &&
             At(Fence(s, t).nodes, ns) == At(s.nodes, ns).(hold := Held(t, Clock(s.time, Global) + MAINTENANCE_TTL)))
  {
    hide HeldBy, Clock;
  }

  lemma ConfirmNodes(s: State, t: nat)
    requires t in s.pruners
    ensures Confirm(s, t).nodes == Fence(s, t).nodes
  {
    hide HeldBy, At;
  }

  lemma GrantNodes(s: State, t: nat, shard: nat, ns: Ns)
    requires t in s.pruners
    ensures At(Grant(s, t, shard).nodes, ns) == At(s.nodes, ns) ||
            (ns == Shard(shard) && !GrantRefused(s, t, shard) && At(Grant(s, t, shard).nodes, ns).fence == t >= At(s.nodes, ns).fence &&
             At(Grant(s, t, shard).nodes, ns).hold == Held(t, Clock(s.time, ns) + MAINTENANCE_TTL))
  {
    hide Clock, Unexpired, Locked, AnyWriting;
  }

  lemma ReleaseNodes(s: State, t: nat, n: Ns, ns: Ns)
    ensures At(Release(s, t, n).nodes, ns) == At(s.nodes, ns) ||
            (ns == n && HeldBy(s.time, s.nodes, n, t) && At(Release(s, t, n).nodes, ns) == At(s.nodes, ns).(hold := Free))
  {
    hide HeldBy;
  }

  lemma PrunerReads(s: State, t: nat, p: PrunerAction)
    requires t in s.pruners && !(p.PFence? || p.PConfirm? || p.PGrant? || p.PRelease?)
    ensures var u := PrunerStep(s, t, p);
            u == s.(pruners := u.pruners, disk := u.disk) && (p.PDelete? || u.disk == s.disk)
  {
    hide HeldBy, KeepLeased, KeepRecent, ReadManifest, ListDead;
    if p.PLeases? || p.PGenerations? || p.PManifest? || p.PList? { PrunerLearns(s, t, p); }
  }

  lemma PrunerLearns(s: State, t: nat, p: PrunerAction)
    requires t in s.pruners && (p.PLeases? || p.PGenerations? || p.PManifest? || p.PList?)
    ensures var u := PrunerStep(s, t, p); u == s.(pruners := u.pruners)
  {
  }
}
