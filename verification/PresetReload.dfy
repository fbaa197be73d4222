/** One process in preset mode: it keeps a local engine of the collection and decides
    by a generation counter, a stale flag and version polls when to replace it
    (pkg/acor/redis_backed.go, pkg/acor/batch_atomic.go).  Every critical section of its
    lock and every Redis call is one action; writes, flushes, invalidations, polls and
    reloads interleave arbitrarily, with any number of each under way. */
module PresetReload {
  import opened Matching

  /** What a version stands for; Redis holds one of these. */
  datatype Committed = Committed(version: int, keywords: set<Word>)

  /** What makes captured generations obsolete. */
  datatype Event = Invalidated | InstallStarted(id: nat) | ReloadInstalled(id: nat) | PollDiffered

  datatype Local = Local(version: int, keywords: set<Word>, engine: set<Word>, stale: bool, generation: nat)

  /** A reload after capturing the generation, then after fetching. `events` is the
      event log at the capture. */
  datatype Reload = Captured(generation: nat, events: seq<Event>) | Fetched(generation: nat, events: seq<Event>, snap: Committed)

  /** A local write after its commit, then after announcing its installation. */
  datatype Install = Done(snap: Committed) | Announced(generation: nat, events: seq<Event>, snap: Committed)

  datatype State = State(
    redis: Committed, history: map<int, set<Word>>, local: Local, events: seq<Event>,
    reloads: map<nat, Reload>, installs: map<nat, Install>, polls: map<nat, Committed>)

  datatype Action =
    | RemoteWrite(c: Committed)
    | LocalWrite(id: nat, c: Committed)
    | LocalFlush(id: nat, version: int)
    | Announce(id: nat)
    | FinishInstall(id: nat)
    | Invalidate
    | PollRead(id: nat)
    | PollAct(id: nat)
    | StartReload(id: nat)
    | Fetch(id: nat)
    | FinishReload(id: nat)

  /** Committed versions are fresh and not 0, which stands for "flushed here". */
  predicate Enabled(s: State, a: Action) {
    match a
    case RemoteWrite(c) => c.version !in s.history && c.version != 0
    case LocalWrite(_, c) => c.version !in s.history && c.version != 0
    case LocalFlush(_, v) => v !in s.history && v != 0
    case Announce(id) => id in s.installs && s.installs[id].Done?
    case FinishInstall(id) => id in s.installs && s.installs[id].Announced?
    case Invalidate => true
    case PollRead(_) => true
    case PollAct(id) => id in s.polls
    case StartReload(_) => true
    case Fetch(id) => id in s.reloads && s.reloads[id].Captured?
    case FinishReload(id) => id in s.reloads && s.reloads[id].Fetched?
  }

  function Store(s: State, c: Committed): State { s.(redis := c, history := s.history[c.version := c.keywords]) }

  /** Marks the local view stale and makes captured generations obsolete. */
  function Outdate(s: State, e: Event): State {
    s.(local := s.local.(stale := true, generation := s.local.generation + 1), events := s.events + [e])
  }

  function Adopt(s: State, c: Committed): State {
    s.(local := s.local.(version := c.version, keywords := c.keywords, engine := c.keywords, stale := false))
  }

  /** Installs a fetched snapshot only if the generation is still the captured one. */
  predicate MayInstall(s: State, generation: nat) { s.local.generation == generation }

  function Apply(s: State, a: Action): State
    requires Enabled(s, a)
  {
    match a
    case RemoteWrite(c) => Store(s, c)
    case LocalWrite(id, c) => Store(s, c).(installs := s.installs[id := Done(c)])
    case LocalFlush(id, v) => Store(s, Committed(v, {})).(installs := s.installs[id := Done(Committed(0, {}))])
    case Announce(id) =>
      var t := Outdate(s, InstallStarted(id));
      t.(installs := s.installs[id := Announced(t.local.generation, t.events, s.installs[id].snap)])
    case FinishInstall(id) =>
      var i := s.installs[id];
      (if MayInstall(s, i.generation) then Adopt(s, i.snap) else s).(installs := s.installs - {id})
    case Invalidate => Outdate(s, Invalidated)
    case PollRead(id) => s.(polls := s.polls[id := s.redis])
    case PollAct(id) =>
      (if s.polls[id].version != s.local.version && !s.local.stale then Outdate(s, PollDiffered) else s).(polls := s.polls - {id})
    case StartReload(id) => s.(reloads := s.reloads[id := Captured(s.local.generation, s.events)])
    case Fetch(id) =>
      var r := s.reloads[id];
      s.(reloads := s.reloads[id := Fetched(r.generation, r.events, s.redis)])
    case FinishReload(id) =>
      var r := s.reloads[id];
      var t := s.(reloads := s.reloads - {id});
      if MayInstall(s, r.generation) then
        Adopt(t, r.snap).(local := Adopt(t, r.snap).local.(generation := s.local.generation + 1), events := s.events + [ReloadInstalled(id)])
      else t
  }

  // ----- the invariant -----

  /** A committed state, or the empty one under version 0. */
  ghost predicate Real(history: map<int, set<Word>>, version: int, keywords: set<Word>) {
    if version == 0 then keywords == {} else version in history && history[version] == keywords
  }

  /** A generation captured together with a log: equal numbers mean equal logs. */
  ghost predicate Snapshotted(s: State, generation: nat, events: seq<Event>) {
    generation == |events| && events <= s.events
  }

  ghost predicate Inv(s: State) {
    && 0 !in s.history && s.redis.version in s.history && s.history[s.redis.version] == s.redis.keywords
    && s.local.generation == |s.events|
    && s.local.engine == s.local.keywords && Real(s.history, s.local.version, s.local.keywords)
    && (forall id {:trigger id in s.reloads} :: id in s.reloads ==>
          && Snapshotted(s, s.reloads[id].generation, s.reloads[id].events)
          && (s.reloads[id].Fetched? ==> Real(s.history, s.reloads[id].snap.version, s.reloads[id].snap.keywords)))
    && (forall id {:trigger id in s.installs} :: id in s.installs ==>
          && Real(s.history, s.installs[id].snap.version, s.installs[id].snap.keywords)
          && (s.installs[id].Announced? ==> Snapshotted(s, s.installs[id].generation, s.installs[id].events)))
    && (forall id {:trigger id in s.polls} :: id in s.polls ==>
          s.polls[id].version in s.history && s.history[s.polls[id].version] == s.polls[id].keywords)
  }

  ghost predicate Initial(s: State) {
    && s.redis.version != 0 && s.history == map[s.redis.version := s.redis.keywords]
    && s.local == Local(0, {}, {}, false, 0) && s.events == [] && s.reloads == map[] && s.installs == map[] && s.polls == map[]
  }

  /** Actions that write to Redis. */
  predicate Writes(a: Action) { a.RemoteWrite? || a.LocalWrite? || a.LocalFlush? }

  lemma WriteKeeps(s: State, a: Action)
    requires Inv(s) && Enabled(s, a) && Writes(a)
    ensures Inv(Apply(s, a))
  {
  }

  /** Actions that install or give up installing. */
  predicate Installs(a: Action) { a.Announce? || a.FinishInstall? || a.FinishReload? }

  lemma InstallKeeps(s: State, a: Action)
    requires Inv(s) && Enabled(s, a) && Installs(a)
    ensures Inv(Apply(s, a))
  {
  }

  lemma LocalKeeps(s: State, a: Action)
    requires Inv(s) && Enabled(s, a) && !Writes(a) && !Installs(a)
    ensures Inv(Apply(s, a))
  {
  }

  lemma StepKeeps(s: State, a: Action)
    requires Inv(s) && Enabled(s, a)
    ensures Inv(Apply(s, a))
  {
    hide Inv, Apply, Enabled;
    if Writes(a) { WriteKeeps(s, a); } else if Installs(a) { InstallKeeps(s, a); } else { LocalKeeps(s, a); }
  }

  ghost predicate StepAt(r: seq<State>, i: nat)
    requires i + 1 < |r|
  {
    exists a :: Enabled(r[i], a) && r[i + 1] == Apply(r[i], a)
  }

  ghost predicate Run(r: seq<State>) {
    r != [] && Initial(r[0]) && forall i {:trigger StepAt(r, i)} :: 0 <= i < |r| - 1 ==> StepAt(r, i)
  }

  lemma {:induction false} RunKeeps(r: seq<State>, i: nat)
    requires Run(r) && i < |r|
    ensures Inv(r[i])
  {
    hide Enabled, Apply;
    if i > 0 {
      RunKeeps(r, i - 1);
      assert StepAt(r, i - 1);
      var a :| Enabled(r[i - 1], a) && r[i] == Apply(r[i - 1], a);
      StepKeeps(r[i - 1], a);
    }
  }

  // ----- what follows -----

  /** Version, keyword set and engine always describe one committed state. */
  lemma LocalViewIsOneState(r: seq<State>, i: nat)
    requires Run(r) && i < |r|
    ensures var s := r[i]; s.local.engine == s.local.keywords && Real(s.history, s.local.version, s.local.keywords)
  {
    hide Run;
    RunKeeps(r, i);
  }

  /** A poll that finds equal versions, however long after its read, proves that the
      local view is what Redis held at that read; and exactly the others, on a view
      that is not stale yet, mark it stale. */
  lemma EqualPollProvesView(r: seq<State>, i: nat, id: nat)
    requires Run(r) && i < |r| && Enabled(r[i], PollAct(id))
    ensures var s, t := r[i], Apply(r[i], PollAct(id));
            && (s.polls[id].version == s.local.version ==> s.local.engine == s.polls[id].keywords && t.local == s.local)
            && (t.local.stale <==> s.local.stale || s.polls[id].version != s.local.version)
  {
    hide Run;
    RunKeeps(r, i);
  }

  /** A reload installs exactly when no invalidation, no start of a local write's
      installation, no differing poll and no other reload's installation came after it
      captured its generation. */
  lemma ReloadInstallsOnlyUndisturbed(r: seq<State>, i: nat, id: nat)
    requires Run(r) && i < |r| && Enabled(r[i], FinishReload(id))
    ensures var s, t, w := r[i], Apply(r[i], FinishReload(id)), r[i].reloads[id];
            && w.events <= s.events
            && (s.events == w.events ==> t.local == Local(w.snap.version, w.snap.keywords, w.snap.keywords, false, |s.events| + 1))
            && (s.events != w.events ==> t.local == s.local)
  {
    hide Run;
    RunKeeps(r, i);
  }

  /** Likewise for a local write's installation. */
  lemma WriteInstallsOnlyUndisturbed(r: seq<State>, i: nat, id: nat)
    requires Run(r) && i < |r| && Enabled(r[i], FinishInstall(id))
    ensures var s, t, w := r[i], Apply(r[i], FinishInstall(id)), r[i].installs[id];
            && w.events <= s.events
            && (s.events == w.events ==> t.local == Local(w.snap.version, w.snap.keywords, w.snap.keywords, false, |s.events|))
            && (s.events != w.events ==> t.local == s.local)
  {
    hide Run;
    RunKeeps(r, i);
  }

  // ----- runs with their actions -----

  ghost predicate Took(s: State, a: Action, t: State) { Enabled(s, a) && t == Apply(s, a) }

  ghost predicate Trace(r: seq<State>, acts: seq<Action>) {
    |r| == |acts| + 1 && Initial(r[0]) && forall i {:trigger acts[i]} :: 0 <= i < |acts| ==> Took(r[i], acts[i], r[i + 1])
  }

  lemma TraceInv(r: seq<State>, acts: seq<Action>, i: nat)
    requires Trace(r, acts) && i <= |acts|
    ensures i < |r| && Inv(r[i])
  {
    hide Enabled, Apply, Initial, Inv;
    forall x | 0 <= x < |r| - 1 ensures StepAt(r, x) { assert Took(r[x], acts[x], r[x + 1]); }
    RunKeeps(r, i);
  }

  lemma TraceStep(r: seq<State>, acts: seq<Action>, i: nat)
    requires Trace(r, acts) && i < |acts|
    ensures |r| == |acts| + 1 && Enabled(r[i], acts[i]) && r[i + 1] == Apply(r[i], acts[i])
  {
    hide Enabled, Apply, Initial;
    assert Took(r[i], acts[i], r[i + 1]);
  }

  /** The action invalidates, announces a local install, acts on a poll that differs from
      a view not yet stale, or installs a reload. */
  predicate Disturbs(s: State, a: Action)
    requires Enabled(s, a)
  {
    match a
    case Invalidate => true
    case Announce(_) => true
    case PollAct(id) => s.polls[id].version != s.local.version && !s.local.stale
    case FinishReload(id) => MayInstall(s, s.reloads[id].generation)
    case _ => false
  }

  ghost predicate Undisturbed(r: seq<State>, acts: seq<Action>, i: nat, j: nat)
    requires Trace(r, acts) && j <= |acts|
  {
    forall x {:trigger acts[x]} :: i <= x < j ==> Enabled(r[x], acts[x]) && !Disturbs(r[x], acts[x])
  }

  lemma EventStep(s: State, a: Action)
    requires Enabled(s, a)
    ensures s.events <= Apply(s, a).events
    ensures Apply(s, a).events == s.events <==> !Disturbs(s, a)
  {
  }

  /** The event log grows exactly by the disturbing actions. */
  lemma {:induction false} EventsCount(r: seq<State>, acts: seq<Action>, i: nat, j: nat)
    requires Trace(r, acts) && i <= j <= |acts|
    ensures r[i].events <= r[j].events && (r[j].events == r[i].events <==> Undisturbed(r, acts, i, j))
    decreases j - i
  {
    hide Enabled, Apply, Trace, Disturbs;
    TraceLength(r, acts);
    if i < j {
      EventsCount(r, acts, i, j - 1);
      TraceStep(r, acts, j - 1);
      EventStep(r[j - 1], acts[j - 1]);
      assert Undisturbed(r, acts, i, j) <==> Undisturbed(r, acts, i, j - 1) && !Disturbs(r[j - 1], acts[j - 1]);
    }
  }

  lemma TraceLength(r: seq<State>, acts: seq<Action>)
    requires Trace(r, acts)
    ensures |r| == |acts| + 1
  {
  }

  // ----- polls, from the read to the act -----

  /** The action handles poll `id`. */
  predicate OfPoll(a: Action, id: nat) { (a.PollRead? || a.PollAct?) && a.id == id }

  lemma {:induction false} PollStays(r: seq<State>, acts: seq<Action>, i: nat, j: nat, id: nat)
    requires Trace(r, acts) && i <= j <= |acts| && |r| == |acts| + 1 && id in r[i].polls
    requires forall x {:trigger acts[x]} :: i <= x < j ==> !OfPoll(acts[x], id)
    ensures id in r[j].polls && r[j].polls[id] == r[i].polls[id]
    decreases j - i
  {
    hide Enabled, Apply, Trace;
    if i < j {
      PollStays(r, acts, i, j - 1, id);
      TraceStep(r, acts, j - 1);
      PollStep(r[j - 1], acts[j - 1], id);
    }
  }

  lemma PollStep(s: State, a: Action, id: nat)
    requires Enabled(s, a) && id in s.polls && !OfPoll(a, id)
    ensures id in Apply(s, a).polls && Apply(s, a).polls[id] == s.polls[id]
  {
  }

  /** A poll that read Redis at `i` and is acted on at `j` decides by what Redis held at
      `i`: with equal versions the local engine is the engine of that state and stays, and
      with different ones the view is stale afterwards. */
  lemma PollDecidesByRedis(r: seq<State>, acts: seq<Action>, i: nat, j: nat, id: nat)
    requires Trace(r, acts) && i < j < |acts| && |r| == |acts| + 1 && acts[i] == PollRead(id) && acts[j] == PollAct(id)
    requires forall x {:trigger acts[x]} :: i < x < j ==> !OfPoll(acts[x], id)
    ensures r[i].redis.version == r[j].local.version ==> r[j].local.engine == r[i].redis.keywords && r[j + 1].local == r[j].local
    ensures r[i].redis.version != r[j].local.version ==> r[j + 1].local.stale
  {
    hide Trace, Inv;
    TraceStep(r, acts, i);
    PollStays(r, acts, i + 1, j, id);
    TraceStep(r, acts, j);
    TraceInv(r, acts, i);
    TraceInv(r, acts, j);
    EqualVersions(r[i], r[j]);
    Histories(r, acts, i, j);
  }

  ghost predicate HistoryGrows(s: State, t: State) { forall v :: v in s.history ==> v in t.history && t.history[v] == s.history[v] }

  lemma HistoryStep(s: State, a: Action)
    requires Enabled(s, a)
    ensures HistoryGrows(s, Apply(s, a))
  {
  }

  lemma {:induction false} Histories(r: seq<State>, acts: seq<Action>, i: nat, j: nat)
    requires Trace(r, acts) && i <= j <= |acts| && |r| == |acts| + 1
    ensures HistoryGrows(r[i], r[j])
    decreases j - i
  {
    hide Enabled, Apply, Trace;
    if i < j {
      Histories(r, acts, i, j - 1);
      TraceStep(r, acts, j - 1);
      HistoryStep(r[j - 1], acts[j - 1]);
    }
  }

  /** One version stands for one keyword set. */
  lemma EqualVersions(s: State, t: State)
    requires Inv(s) && Inv(t)
    ensures HistoryGrows(s, t) && s.redis.version == t.local.version ==> t.local.engine == s.redis.keywords
  {
  }

  // ----- reloads, from the capture to the install -----

  predicate OfReload(a: Action, id: nat) { (a.StartReload? || a.Fetch? || a.FinishReload?) && a.id == id }

  lemma ReloadStep(s: State, a: Action, id: nat)
    requires Enabled(s, a) && id in s.reloads && !OfReload(a, id)
    ensures id in Apply(s, a).reloads && Apply(s, a).reloads[id] == s.reloads[id]
  {
  }

  lemma {:induction false} ReloadStays(r: seq<State>, acts: seq<Action>, i: nat, j: nat, id: nat)
    requires Trace(r, acts) && i <= j <= |acts| && |r| == |acts| + 1 && id in r[i].reloads
    requires forall x {:trigger acts[x]} :: i <= x < j ==> !OfReload(acts[x], id)
    ensures id in r[j].reloads && r[j].reloads[id] == r[i].reloads[id]
    decreases j - i
  {
    hide Enabled, Apply, Trace;
    if i < j {
      ReloadStays(r, acts, i, j - 1, id);
      TraceStep(r, acts, j - 1);
      ReloadStep(r[j - 1], acts[j - 1], id);
    }
  }

  /** A reload that captured at `i`, fetched at `f` and finishes at `j` installs exactly
      when nothing disturbed it since `i`, and then what Redis held at `f`. */
  lemma ReloadInstallsWhatRedisHeld(r: seq<State>, acts: seq<Action>, i: nat, f: nat, j: nat, id: nat)
    requires Trace(r, acts) && i < f < j < |acts| && |r| == |acts| + 1
    requires acts[i] == StartReload(id) && acts[f] == Fetch(id) && acts[j] == FinishReload(id)
    requires forall x {:trigger acts[x]} :: i < x < j && x != f ==> !OfReload(acts[x], id)
    ensures if Undisturbed(r, acts, i, j) then
              var c := r[f].redis;
              r[j + 1].local == Local(c.version, c.keywords, c.keywords, false, r[j].local.generation + 1)
            else r[j + 1].local == r[j].local
  {
    hide Trace, Inv, Undisturbed;
    TraceStep(r, acts, i);
    ReloadStays(r, acts, i + 1, f, id);
    TraceStep(r, acts, f);
    ReloadStays(r, acts, f + 1, j, id);
    TraceStep(r, acts, j);
    TraceInv(r, acts, i);
    TraceInv(r, acts, j);
    EventsCount(r, acts, i, j);
    SameGeneration(r[i], r[j]);
  }

  lemma SameGeneration(s: State, t: State)
    requires Inv(s) && Inv(t) && s.events <= t.events
    ensures s.local.generation == t.local.generation <==> s.events == t.events
  {
  }

  // ----- local writes, from the commit to the install -----

  predicate OfInstall(a: Action, id: nat) { (a.LocalWrite? || a.LocalFlush? || a.Announce? || a.FinishInstall?) && a.id == id }

  lemma InstallStep(s: State, a: Action, id: nat)
    requires Enabled(s, a) && id in s.installs && !OfInstall(a, id)
    ensures id in Apply(s, a).installs && Apply(s, a).installs[id] == s.installs[id]
  {
  }

  lemma {:induction false} InstallStays(r: seq<State>, acts: seq<Action>, i: nat, j: nat, id: nat)
    requires Trace(r, acts) && i <= j <= |acts| && |r| == |acts| + 1 && id in r[i].installs
    requires forall x {:trigger acts[x]} :: i <= x < j ==> !OfInstall(acts[x], id)
    ensures id in r[j].installs && r[j].installs[id] == r[i].installs[id]
    decreases j - i
  {
    hide Enabled, Apply, Trace;
    if i < j {
      InstallStays(r, acts, i, j - 1, id);
      TraceStep(r, acts, j - 1);
      InstallStep(r[j - 1], acts[j - 1], id);
    }
  }

  /** A local write or flush that committed at `i` and announced itself at `n` outdates
      the view there.  At `j` it installs exactly when nothing disturbed it since, and
      then what it committed, a flush under version 0. */
  lemma WriteInstallsWhatItCommitted(r: seq<State>, acts: seq<Action>, i: nat, n: nat, j: nat, id: nat)
    requires Trace(r, acts) && i < n < j < |acts| && |r| == |acts| + 1
    requires (acts[i].LocalWrite? || acts[i].LocalFlush?) && acts[i].id == id && acts[n] == Announce(id) && acts[j] == FinishInstall(id)
    requires forall x {:trigger acts[x]} :: i < x < j && x != n ==> !OfInstall(acts[x], id)
    ensures r[n + 1].local == r[n].local.(stale := true, generation := r[n].local.generation + 1)
    ensures r[i + 1].redis == if acts[i].LocalWrite? then acts[i].c else Committed(acts[i].version, {})
    ensures if Undisturbed(r, acts, n + 1, j) then
              var c := if acts[i].LocalWrite? then acts[i].c else Committed(0, {});
              r[j + 1].local == Local(c.version, c.keywords, c.keywords, false, r[j].local.generation)
            else r[j + 1].local == r[j].local
  {
    hide Trace, Inv, Undisturbed;
    TraceStep(r, acts, i);
    InstallStays(r, acts, i + 1, n, id);
    TraceStep(r, acts, n);
    InstallStays(r, acts, n + 1, j, id);
    TraceStep(r, acts, j);
    TraceInv(r, acts, n + 1);
    TraceInv(r, acts, j);
    EventsCount(r, acts, n + 1, j);
    SameGeneration(r[n + 1], r[j]);
  }

  // ----- staleness -----

  /** An invalidation makes the view stale, and it stays stale until something is
      installed: whatever was captured before is refused. */
  lemma {:induction false} StaleUntilInstalled(r: seq<State>, acts: seq<Action>, i: nat, j: nat)
    requires Trace(r, acts) && i < j <= |acts| && |r| == |acts| + 1 && acts[i] == Invalidate
    requires forall x {:trigger acts[x]} :: i < x < j ==> !(acts[x].FinishInstall? || acts[x].FinishReload?) || r[x + 1].local == r[x].local
    ensures r[j].local.stale && r[j].local.version == r[i].local.version && r[j].local.engine == r[i].local.engine
    decreases j - i
  {
    hide Enabled, Apply, Trace;
    TraceStep(r, acts, j - 1);
    if i + 1 < j { StaleUntilInstalled(r, acts, i, j - 1); }
    StaleStep(r[j - 1], acts[j - 1]);
  }

  lemma StaleStep(s: State, a: Action)
    requires Enabled(s, a)
    ensures a.Invalidate? ==> Apply(s, a).local == s.local.(stale := true, generation := s.local.generation + 1)
    ensures !(a.FinishInstall? || a.FinishReload?) ==>
              && (s.local.stale ==> Apply(s, a).local.stale)
              && Apply(s, a).local.version == s.local.version && Apply(s, a).local.engine == s.local.engine
  {
  }

  /** A remote write is what the next fetch or poll finds, until the next write. */
  lemma {:induction false} RedisHoldsTheLastWrite(r: seq<State>, acts: seq<Action>, i: nat, j: nat)
    requires Trace(r, acts) && i < j <= |acts| && |r| == |acts| + 1 && Writes(acts[i])
    requires forall x {:trigger acts[x]} :: i < x < j ==> !Writes(acts[x])
    ensures r[j].redis == if acts[i].LocalFlush? then Committed(acts[i].version, {}) else acts[i].c
    decreases j - i
  {
    hide Enabled, Apply, Trace;
    TraceStep(r, acts, j - 1);
    if i + 1 < j { RedisHoldsTheLastWrite(r, acts, i, j - 1); }
    RedisStep(r[j - 1], acts[j - 1]);
  }

  lemma RedisStep(s: State, a: Action)
    requires Enabled(s, a)
    ensures Apply(s, a).redis == match a
                                 case RemoteWrite(c) => c
                                 case LocalWrite(_, c) => c
                                 case LocalFlush(_, v) => Committed(v, {})
                                 case _ => s.redis
  {
  }
}
