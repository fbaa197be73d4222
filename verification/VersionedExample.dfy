/** One run from end to end, so that the theorems about commits and prunes are not
    vacuous. */
module VersionedExample {
  import opened VersionedStore
  import opened VersionedLeases
  import opened VersionedPreparations

  const GEN0 := RefDoc(1, {})
  const GEN1 := RefDoc(2, {})
  const DAY_LATER: nat := 86401000

  /** An unsharded collection after one write, at time `now`. */
  function Scene(now: nat, n: Node, store: map<Key, Doc>, scores: map<nat, int>, w: Writer, active: nat, log: Log, pruners: map<nat, Pruner>): State {
    State(Time(now, map[]), map[Global := n], map[GenKey(0) := GEN0, GenKey(1) := GEN1], Disk(store, scores, {}), active, map[], log,
          map[1 := w], pruners, map[], {0, 1})
  }

  function Committing(staged: bool, log: Log, active: nat): State {
    var w := Writer(0, Change({GenKey(1)}, Receipt(0, 1, 1, 0)), if staged then {GenKey(1)} else {}, {});
    if staged then
      Scene(0, Node(Free, 0, map[1 := 10]), map[GenKey(0) := GEN0, GenKey(1) := GEN1], map[0 := 0, 1 := 0], w, active, log, map[])
    else
      Scene(0, Node(Free, 0, map[1 := 10]), map[GenKey(0) := GEN0], map[0 := 0], w, active, log, map[])
  }

  const NEW_LOG := Log(map[], map[0 := 1], [])
  const WRITTEN_LOG := Log(map[1 := Receipt(0, 1, 1, 0)], map[0 := 1, 1 := 2], [Commit(0, 1)])

  /** The pruner at work a day later, with what it has collected. */
  function Pruning(p: Pruner, deleted: bool): State {
    var w := Committing(true, WRITTEN_LOG, 1).writers[1];
    var n := Node(Held(1, DAY_LATER + 30000), 1, map[]);
    if deleted then Scene(DAY_LATER, n, map[GenKey(1) := GEN1], map[1 := 0], w, 1, WRITTEN_LOG, map[1 := p])
    else Scene(DAY_LATER, n, map[GenKey(0) := GEN0, GenKey(1) := GEN1], map[0 := 0, 1 := 0], w, 1, WRITTEN_LOG, map[1 := p])
  }

  function Collected(phase: Phase, keep: set<nat>, listed: set<nat>, toRead: set<Key>, dead: set<Key>): Pruner {
    Pruner(86401, phase, keep, listed, toRead, {}, dead, {}, false)
  }

  const PLAN_DOCS: Docs := map[GenKey(1) := GEN1]

  lemma WriteSteps()
    ensures var s := NewCollection(map[]);
            var s1 := OpenWriter(s, 1, 0, 10);
            && Took(s, WriterAct(1, WAcquire(0, 10)), s1)
            && Took(s1, WriterAct(1, WChange(PLAN_DOCS, {GenKey(1)}, Receipt(0, 1, 1, 0))), Committing(false, NEW_LOG, 0))
  {
  }

  lemma StageStep()
    ensures Took(Committing(false, NEW_LOG, 0), WriterAct(1, WStage(GenKey(1))), Committing(true, NEW_LOG, 0))
  {
    assert Stage(Committing(false, NEW_LOG, 0), 1, GenKey(1)).writers[1].staged == {GenKey(1)};
  }

  lemma CommitStepTaken()
    ensures Took(Committing(true, NEW_LOG, 0), WriterAct(1, WCommit), Committing(true, WRITTEN_LOG, 1))
  {
  }

  lemma StartSteps()
    ensures var s := Committing(true, WRITTEN_LOG, 1);
            var t := s.(time := Time(DAY_LATER, map[]));
            && Took(s, Tick(DAY_LATER), t)
            && Took(t, StartPrune, Pruning(Collected(ReadActive, {}, {}, {}, {}), false))
  {
  }

  lemma ActiveStep()
    ensures Took(Pruning(Collected(ReadActive, {}, {}, {}, {}), false), PrunerAct(1, PActive), Pruning(Collected(ReadLeases, {1}, {}, {}, {}), false))
  {
  }

  lemma LeasesStep()
    ensures Took(Pruning(Collected(ReadLeases, {1}, {}, {}, {}), false), PrunerAct(1, PLeases), Pruning(Collected(ReadGenerations, {1}, {}, {}, {}), false))
  {
    assert KeepLeased(Pruning(Collected(ReadLeases, {1}, {}, {}, {}), false), 1).pruners[1].keep == {1};
  }

  lemma RecentStep()
    ensures Took(Pruning(Collected(ReadGenerations, {1}, {}, {}, {}), false), PrunerAct(1, PGenerations),
                 Pruning(Collected(Sweep, {1}, {0, 1}, {GenKey(1)}, {}), false))
  {
    var q := KeepRecent(Pruning(Collected(ReadGenerations, {1}, {}, {}, {}), false), 1).pruners[1];
    assert q.keep == {1};
    assert q.listed == {0, 1};
    assert q.toRead == {GenKey(1)};
  }

  lemma ManifestStep()
    ensures Took(Pruning(Collected(Sweep, {1}, {0, 1}, {GenKey(1)}, {}), false), PrunerAct(1, PManifest(GenKey(1))),
                 Pruning(Collected(Sweep, {1}, {0, 1}, {}, {}), false))
  {
    var q := ReadManifest(Pruning(Collected(Sweep, {1}, {0, 1}, {GenKey(1)}, {}), false), 1, GenKey(1)).pruners[1];
    assert q.toRead == {};
    assert q.refs == {};
  }

  lemma ListStep()
    ensures Took(Pruning(Collected(Sweep, {1}, {0, 1}, {}, {}), false), PrunerAct(1, PList(Global)),
                 Pruning(Collected(Sweep, {1}, {0, 1}, {}, {GenKey(0)}), false))
  {
    var q := ListDead(Pruning(Collected(Sweep, {1}, {0, 1}, {}, {}), false), 1, Global).pruners[1];
    assert q.dead == {GenKey(0)};
  }

  lemma DeleteStep()
    ensures Took(Pruning(Collected(Sweep, {1}, {0, 1}, {}, {GenKey(0)}), false), PrunerAct(1, PDelete(Global, {GenKey(0)})),
                 Pruning(Collected(Sweep, {1}, {0, 1}, {}, {GenKey(0)}), true))
  {
    hide HeldBy;
    var s := Pruning(Collected(Sweep, {1}, {0, 1}, {}, {GenKey(0)}), false);
    TokenHeld(s.pruners[1]);
    var u := Delete(s, 1, Global, {GenKey(0)});
    assert u.disk.store == map[GenKey(1) := GEN1];
    assert u.disk.scores == map[1 := 0];
    assert u.disk.registry == {};
  }

  lemma TokenHeld(p: Pruner)
    ensures var s := Pruning(p, false); HeldBy(s.time, s.nodes, Global, 1)
  {
  }

  lemma StartsEmpty()
    ensures Initial(NewCollection(map[]))
  {
  }

  lemma BeforeAndAfter(p: Pruner)
    ensures Committing(true, WRITTEN_LOG, 1).active == 1 && GenKey(0) in Committing(true, WRITTEN_LOG, 1).disk.store
    ensures GenKey(0) !in Pruning(p, true).disk.store && GenKey(1) in Pruning(p, true).disk.store
  {
  }

  /** In one run a write is committed, and a day later the generation it superseded is
      deleted. */
  lemma SomePruneDeletes() returns (r: seq<State>, acts: seq<Action>)
    ensures Trace(r, acts) && |acts| == 12
    ensures acts[3] == WriterAct(1, WCommit) && r[4].active == 1 && GenKey(0) in r[4].disk.store
    ensures acts[5] == StartPrune && GenKey(0) !in r[12].disk.store && GenKey(1) in r[12].disk.store
  {
    hide Took, Initial, Committing, Pruning, Collected, NewCollection, OpenWriter;
    var s, written, swept := NewCollection(map[]), Committing(true, WRITTEN_LOG, 1), Collected(Sweep, {1}, {0, 1}, {}, {GenKey(0)});
    StartsEmpty();
    WriteSteps();
    StageStep();
    CommitStepTaken();
    StartSteps();
    ActiveStep();
    LeasesStep();
    RecentStep();
    ManifestStep();
    ListStep();
    DeleteStep();
    BeforeAndAfter(swept);
    acts := [WriterAct(1, WAcquire(0, 10)), WriterAct(1, WChange(PLAN_DOCS, {GenKey(1)}, Receipt(0, 1, 1, 0))), WriterAct(1, WStage(GenKey(1))),
             WriterAct(1, WCommit), Tick(DAY_LATER), StartPrune, PrunerAct(1, PActive), PrunerAct(1, PLeases), PrunerAct(1, PGenerations),
             PrunerAct(1, PManifest(GenKey(1))), PrunerAct(1, PList(Global)), PrunerAct(1, PDelete(Global, {GenKey(0)}))];
    r := [s, OpenWriter(s, 1, 0, 10), Committing(false, NEW_LOG, 0), Committing(true, NEW_LOG, 0), written, written.(time := Time(DAY_LATER, map[])),
          Pruning(Collected(ReadActive, {}, {}, {}, {}), false), Pruning(Collected(ReadLeases, {1}, {}, {}, {}), false),
          Pruning(Collected(ReadGenerations, {1}, {}, {}, {}), false), Pruning(Collected(Sweep, {1}, {0, 1}, {GenKey(1)}, {}), false),
          Pruning(Collected(Sweep, {1}, {0, 1}, {}, {}), false), Pruning(swept, false), Pruning(swept, true)];
  }
}
