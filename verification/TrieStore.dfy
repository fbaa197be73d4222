/** Optimistic writes to the V2 schema: any number of writers read, plan and commit by
    compare-and-set on the version, while flushes reset the collection
    (pkg/acor/v2_transaction.go, pkg/acor/v2_lua.go). */
module TrieStore {
  import opened Matching
  import opened TriePlan

  /** The trie hash and the outputs hash. */
  datatype Db = Db(snap: Snap, version: int, outputs: OutputMap)

  /** A planned write: what it read, and the batch it adds or removes. */
  datatype Planned = Planned(origin: Snap, version: int, adding: bool, batch: seq<Word>)

  datatype State = State(db: Db, planned: map<nat, Planned>, used: set<int>)

  function NewSnap(p: Planned): Snap {
    if p.adding then AddSnap(p.origin, p.batch) else RemoveSnap(p.origin, Members(p.batch))
  }

  predicate Changes(p: Planned) {
    if p.adding then Fresh(p.origin.keywords, p.batch) != [] else Only(p.origin.keywords, Members(p.batch)) != []
  }

  const EMPTY := Snap([], [[]])

  datatype Action =
    | Plan(id: nat, adding: bool, batch: seq<Word>)
    | Commit(id: nat, version: int)
    | Flush(version: int)

  /** New versions are fresh; only plans that change something are committed. */
  predicate Enabled(s: State, a: Action) {
    match a
    case Plan(_, _, _) => true
    case Commit(id, v) => id in s.planned && Changes(s.planned[id]) && v !in s.used
    case Flush(v) => v !in s.used
  }

  /** The write script: refuse if the version moved, else swap the trie fields and
      write the output lists, clearing the old ones for a removal. */
  function Write(db: Db, p: Planned, v: int): Db {
    if db.version != p.version then db
    else Db(NewSnap(p), v, if p.adding then db.outputs + Full(NewSnap(p)) else Full(NewSnap(p)))
  }

  function Apply(s: State, a: Action): State
    requires Enabled(s, a)
  {
    match a
    case Plan(id, adding, batch) => s.(planned := s.planned[id := Planned(s.db.snap, s.db.version, adding, batch)])
    case Commit(id, v) => s.(db := Write(s.db, s.planned[id], v), used := s.used + {v})
    case Flush(v) => s.(db := Db(EMPTY, v, map[]), used := s.used + {v})
  }

  ghost predicate Initial(s: State) {
    s.db.snap == EMPTY && s.db.outputs == map[] && s.planned == map[] && s.used == {s.db.version}
  }

  /** Stored data is consistent, and a plan whose version is still current was made
      from what is stored. */
  ghost predicate Inv(s: State) {
    && Ok(s.db.snap) && s.db.outputs == Full(s.db.snap) && s.db.version in s.used
    && (forall id {:trigger id in s.planned} :: id in s.planned ==>
          s.planned[id].version in s.used && (s.planned[id].version == s.db.version ==> s.planned[id].origin == s.db.snap))
  }

  lemma EmptyOk()
    ensures Ok(EMPTY) && Full(EMPTY) == map[]
  {
  }

  lemma StepKeeps(s: State, a: Action)
    requires Inv(s) && Enabled(s, a)
    ensures Inv(Apply(s, a))
  {
    hide Full, Ok, AddSnap, RemoveSnap;
    EmptyOk();
    if a.Commit? {
      var p := s.planned[a.id];
      if p.version == s.db.version {
        AddOk(p.origin, p.batch);
        RemoveOk(p.origin, Members(p.batch));
        DeltaCompletes(p.origin, p.batch);
      }
    }
  }

  /** What a write leaves: the stored keywords plus or minus the batch, in order. */
  ghost predicate Written(before: Snap, p: Planned, after: Snap) {
    && (forall k {:trigger k in after.keywords} :: k in after.keywords <==>
          if p.adding then k in before.keywords || (k in p.batch && k != []) else k in before.keywords && k !in p.batch)
    && (if p.adding then before.keywords <= after.keywords else KeepsOrder(after.keywords, before.keywords))
  }

  /** A commit whose version is still current acts on what is stored at that moment, so
      that no write is lost; one whose version has moved leaves the database alone. */
  lemma CommitActsOnCurrent(s: State, id: nat, v: int)
    requires Inv(s) && Enabled(s, Commit(id, v))
    ensures var p, t := s.planned[id], Apply(s, Commit(id, v));
            if p.version == s.db.version then Written(s.db.snap, p, t.db.snap) && t.db.version == v && IsFull(t.db.snap.keywords, t.db.outputs)
            else t.db == s.db
  {
    hide AddSnap, RemoveSnap, Ok, Full, IsFull, KeepsOrder;
    var p := s.planned[id];
    if p.version == s.db.version {
      AddAdds(p.origin, p.batch);
      RemoveRemoves(p.origin, Members(p.batch));
      StepKeeps(s, Commit(id, v));
      FullIsFull(Apply(s, Commit(id, v)).db.snap);
    }
  }

  /** A flush leaves an empty collection under a new version. */
  lemma FlushEmpties(s: State, v: int)
    requires Enabled(s, Flush(v))
    ensures Apply(s, Flush(v)).db == Db(Snap([], [[]]), v, map[]) && IsFull([], map[])
  {
  }

  ghost predicate StepAt(r: seq<State>, i: nat)
    requires i + 1 < |r|
  {
    exists a :: Enabled(r[i], a) && r[i + 1] == Apply(r[i], a)
  }

  ghost predicate Run(r: seq<State>) {
    r != [] && Initial(r[0]) && forall i {:trigger StepAt(r, i)} :: 0 <= i < |r| - 1 ==> StepAt(r, i)
  }

  lemma {:induction false} RunKeeps(r: seq<State>, i: nat)
    requires Run(r) && i < |r|
    ensures Inv(r[i])
  {
    hide Enabled, Apply, Inv;
    if i == 0 {
      InitialOk(r[0]);
    } else {
      RunKeeps(r, i - 1);
      assert StepAt(r, i - 1);
      var a :| Enabled(r[i - 1], a) && r[i] == Apply(r[i - 1], a);
      StepKeeps(r[i - 1], a);
    }
  }

  lemma InitialOk(s: State)
    requires Initial(s)
    ensures Inv(s)
  {
    EmptyOk();
  }

  /** In every run: the stored prefixes are those of the stored keywords, the outputs
      hash is what a full recomputation gives, and its values together are exactly the
      keywords. */
  lemma StoredIndexIsExact(r: seq<State>, i: nat)
    requires Run(r) && i < |r|
    ensures var db := r[i].db;
            && SnapOk(db.snap.keywords, db.snap.prefixes) && IsFull(db.snap.keywords, db.outputs)
            && (forall k :: (exists p :: p in db.outputs && k in db.outputs[p]) <==> k in db.snap.keywords)
  {
    hide Run, SnapOk, IsFull, Full;
    RunKeeps(r, i);
    var db := r[i].db;
    FullIsFull(db.snap);
    NoEmptyKeyword(db.snap);
    forall k ensures (exists p :: p in db.outputs && k in db.outputs[p]) <==> k in db.snap.keywords {
      OutputsHoldTheKeywords(db.snap.keywords, db.outputs, k);
    }
  }

  lemma NoEmptyKeyword(s: Snap)
    requires Ok(s)
    ensures [] !in s.keywords
  {
  }

  // ----- from the read to the commit -----

  ghost predicate Took(s: State, a: Action, t: State) { Enabled(s, a) && t == Apply(s, a) }

  /** A run together with the action of every step. */
  ghost predicate Trace(r: seq<State>, acts: seq<Action>) {
    |r| == |acts| + 1 && Initial(r[0]) && forall i {:trigger acts[i]} :: 0 <= i < |acts| ==> Took(r[i], acts[i], r[i + 1])
  }

  lemma TraceInv(r: seq<State>, acts: seq<Action>, i: nat)
    requires Trace(r, acts) && i <= |acts|
    ensures i < |r| && Inv(r[i])
  {
    hide Enabled, Apply, Initial, Inv;
    forall x | 0 <= x < |r| - 1 ensures StepAt(r, x) { assert Took(r[x], acts[x], r[x + 1]); }
    RunKeeps(r, i);
  }

  lemma TraceStep(r: seq<State>, acts: seq<Action>, i: nat)
    requires Trace(r, acts) && i < |acts|
    ensures |r| == |acts| + 1 && Enabled(r[i], acts[i]) && r[i + 1] == Apply(r[i], acts[i])
  {
    hide Enabled, Apply, Initial;
    assert Took(r[i], acts[i], r[i + 1]);
  }

  lemma {:induction false} PlanStays(r: seq<State>, acts: seq<Action>, i: nat, j: nat, id: nat)
    requires Trace(r, acts) && i <= j <= |acts| && |r| == |acts| + 1 && id in r[i].planned
    requires forall x {:trigger acts[x]} :: i <= x < j ==> !(acts[x].Plan? && acts[x].id == id)
    ensures id in r[j].planned && r[j].planned[id] == r[i].planned[id]
    decreases j - i
  {
    hide Enabled, Trace, Write;
    if i < j {
      PlanStays(r, acts, i, j - 1, id);
      TraceStep(r, acts, j - 1);
    }
  }

  /** Versions never come back: the one read at `i` is current at `j` exactly when the
      database has not changed in between. */
  lemma {:induction false} VersionsDoNotReturn(r: seq<State>, acts: seq<Action>, i: nat, j: nat)
    requires Trace(r, acts) && i <= j <= |acts| && |r| == |acts| + 1
    ensures r[i].db.version == r[j].db.version <==> forall x {:trigger r[x]} :: i <= x <= j ==> r[x].db == r[i].db
    ensures r[i].used <= r[j].used && r[i].db.version in r[j].used
    decreases j - i
  {
    hide Enabled, Apply, Trace, Inv;
    TraceInv(r, acts, i);
    VersionUsed(r[i]);
    if i < j {
      VersionsDoNotReturn(r, acts, i, j - 1);
      TraceStep(r, acts, j - 1);
      VersionStep(r[j - 1], acts[j - 1]);
    }
  }

  lemma VersionUsed(s: State)
    requires Inv(s)
    ensures s.db.version in s.used
  {
  }

  lemma VersionStep(s: State, a: Action)
    requires Enabled(s, a)
    ensures s.used <= Apply(s, a).used
    ensures Apply(s, a).db == s.db || (Apply(s, a).db.version !in s.used && Apply(s, a).db.version in Apply(s, a).used)
  {
    hide NewSnap, Full, Changes;
  }

  /** A write from its read to its commit: if nobody changed the database since the read,
      the batch is added to or removed from what is stored; otherwise nothing happens. */
  lemma WriteIsAtomic(r: seq<State>, acts: seq<Action>, i: nat, j: nat, id: nat, adding: bool, batch: seq<Word>, v: int)
    requires Trace(r, acts) && i < j < |acts| && |r| == |acts| + 1
    requires acts[i] == Plan(id, adding, batch) && acts[j] == Commit(id, v)
    requires forall x {:trigger acts[x]} :: i < x < j ==> !(acts[x].Plan? && acts[x].id == id)
    ensures if forall x {:trigger r[x]} :: i + 1 <= x <= j ==> r[x].db == r[i + 1].db then
              r[j + 1].db.version == v && Written(r[j].db.snap, Planned(r[i].db.snap, r[i].db.version, adding, batch), r[j + 1].db.snap)
            else r[j + 1].db == r[j].db
  {
    hide Trace, Inv, Written, Changes;
    TraceStep(r, acts, i);
    PlanStays(r, acts, i + 1, j, id);
    TraceStep(r, acts, j);
    TraceInv(r, acts, j);
    VersionsDoNotReturn(r, acts, i + 1, j);
    CommitActsOnCurrent(r[j], id, v);
  }
}
