/** Planning a write to the V2 schema: from a snapshot of the stored keywords and
    prefixes to the new snapshot and the output lists to store (pkg/acor/v2_plan.go). */
module TriePlan {
  import opened Matching

  type OutputMap = map<Word, seq<Word>>

  // ----- what is stored -----

  function Members(s: seq<Word>): set<Word> { set w | w in s }

  ghost predicate PrefixOf(keywords: seq<Word>, p: Word) {
    exists k :: k in keywords && p <= k
  }

  /** The stored prefixes are the empty word, first, and then exactly the non-empty
      prefixes of the stored keywords, each once. */
  ghost predicate SnapOk(keywords: seq<Word>, prefixes: seq<Word>) {
    && [] !in keywords && prefixes != [] && prefixes[0] == [] && NoRepeats(keywords) && NoRepeats(prefixes)
    && forall p {:trigger p in prefixes} {:trigger PrefixOf(keywords, p)} :: p in prefixes <==> p == [] || PrefixOf(keywords, p)
  }

  ghost predicate NoRepeats(s: seq<Word>) { forall i, j :: 0 <= i < j < |s| ==> s[i] != s[j] }

  /** The output list of every state that has one, computed from scratch. */
  ghost predicate IsFull(keywords: seq<Word>, outputs: OutputMap) {
    forall p {:trigger p in outputs} {:trigger PrefixOf(keywords, p)} ::
      && (p in outputs <==> p != [] && PrefixOf(keywords, p) && KeywordSuffixes(Members(keywords), p) != [])
      && (p in outputs ==> outputs[p] == KeywordSuffixes(Members(keywords), p))
  }

  lemma FullUnique(keywords: seq<Word>, a: OutputMap, b: OutputMap)
    requires IsFull(keywords, a) && IsFull(keywords, b)
    ensures a == b
  {
    assert forall p :: p in a <==> p in b;
    assert forall p :: p in a ==> a[p] == b[p];
  }

  /** Readers build their engine from the union of all output lists: exactly the
      stored keywords. */
  lemma OutputsHoldTheKeywords(keywords: seq<Word>, outputs: OutputMap, k: Word)
    requires IsFull(keywords, outputs) && [] !in keywords
    ensures (exists p :: p in outputs && k in outputs[p]) <==> k in keywords
  {
    var dict := Members(keywords);
    if k in keywords {
      KeywordSuffixesExact(dict, k, k);
      assert PrefixOf(keywords, k);
      assert k in outputs;
    }
    if p :| p in outputs && k in outputs[p] { KeywordSuffixesExact(dict, p, k); }
  }

  // ----- output lists -----

  /** `state` itself when it is a keyword, then every proper suffix that is both a live
      prefix and a keyword, longest first. */
  method ComputeOutputs(state: Word, prefixSet: set<Word>, keywordSet: set<Word>) returns (outputs: seq<Word>)
    requires state != []
    ensures outputs == (if state in keywordSet then [state] else []) + KeywordSuffixes(prefixSet * keywordSet, state[1..])
  {
    outputs := [];
    if state in keywordSet { outputs := outputs + [state]; }
    var live := prefixSet * keywordSet;
    var i := 1;
    while i < |state|
      invariant 1 <= i <= |state|
      invariant outputs + KeywordSuffixes(live, state[i..]) ==
                (if state in keywordSet then [state] else []) + KeywordSuffixes(live, state[1..])
    {
      var failState := state[i..];
      assert failState[1..] == state[i + 1..];
      if failState in prefixSet && failState in keywordSet { outputs := outputs + [failState]; }
      i := i + 1;
    }
    assert state[i..] == [];
  }

  /** When every keyword is a live prefix, these are all keywords that end the state. */
  lemma OutputsAreSuffixes(state: Word, prefixSet: set<Word>, keywordSet: set<Word>)
    requires state != [] && keywordSet <= prefixSet
    ensures (if state in keywordSet then [state] else []) + KeywordSuffixes(prefixSet * keywordSet, state[1..]) ==
              KeywordSuffixes(keywordSet, state)
  {
    assert prefixSet * keywordSet == keywordSet;
  }

  /** Output lists for the given prefixes, skipping empty ones. */
  method OutputsFor(prefixes: seq<Word>, prefixSet: set<Word>, keywordSet: set<Word>, before: OutputMap) returns (outputs: OutputMap)
    requires keywordSet <= prefixSet
    ensures forall p :: p in outputs <==> p in before || (p in prefixes && p != [] && KeywordSuffixes(keywordSet, p) != [])
    ensures forall p :: p in outputs ==>
              outputs[p] == if p in prefixes && p != [] && KeywordSuffixes(keywordSet, p) != [] then KeywordSuffixes(keywordSet, p) else before[p]
  {
    hide KeywordSuffixes;
    outputs := before;
    for i := 0 to |prefixes|
      invariant forall p :: p in outputs <==> p in before || (p in prefixes[..i] && p != [] && KeywordSuffixes(keywordSet, p) != [])
      invariant forall p :: p in outputs ==>
                  outputs[p] == if p in prefixes[..i] && p != [] && KeywordSuffixes(keywordSet, p) != [] then KeywordSuffixes(keywordSet, p) else before[p]
    {
      assert prefixes[..i + 1] == prefixes[..i] + [prefixes[i]];
      var prefix := prefixes[i];
      if prefix != [] {
        var outs := ComputeOutputs(prefix, prefixSet, keywordSet);
        OutputsAreSuffixes(prefix, prefixSet, keywordSet);
        if |outs| > 0 { outputs := outputs[prefix := outs]; }
      }
    }
    assert prefixes[..|prefixes|] == prefixes;
  }

  // ----- adding -----

  /** The keywords of a batch that are new, in order. */
  function Fresh(keywords: seq<Word>, batch: seq<Word>): seq<Word> {
    if batch == [] then []
    else
      var front, k := Fresh(keywords, batch[..|batch| - 1]), batch[|batch| - 1];
      if k == [] || k in keywords || k in front then front else front + [k]
  }

  /** The prefixes of `k` of length up to `n` that are not among `known`, shortest
      first. */
  function NewPrefixes(known: seq<Word>, k: Word, n: nat): seq<Word>
    requires n <= |k|
  {
    if n == 0 then []
    else
      var front := NewPrefixes(known, k, n - 1);
      if k[..n] in known || k[..n] in front then front else front + [k[..n]]
  }

  /** Prefixes after adding each of `added`. */
  function Extended(prefixes: seq<Word>, added: seq<Word>): seq<Word> {
    if added == [] then prefixes
    else
      var front := Extended(prefixes, added[..|added| - 1]);
      var k := added[|added| - 1];
      front + NewPrefixes(front, k, |k|)
  }

  lemma {:induction false} FreshExact(keywords: seq<Word>, batch: seq<Word>)
    ensures NoRepeats(Fresh(keywords, batch))
    ensures forall k :: k in Fresh(keywords, batch) <==> k in batch && k != [] && k !in keywords
  {
    if batch != [] {
      FreshExact(keywords, batch[..|batch| - 1]);
      assert batch == batch[..|batch| - 1] + [batch[|batch| - 1]];
    }
  }

  lemma {:induction false} NewPrefixesExact(known: seq<Word>, k: Word, n: nat)
    requires n <= |k|
    ensures NoRepeats(NewPrefixes(known, k, n))
    ensures forall p :: p in NewPrefixes(known, k, n) <==> p !in known && 0 < |p| <= n && p <= k
  {
    if n > 0 {
      NewPrefixesExact(known, k, n - 1);
      forall p ensures p in NewPrefixes(known, k, n) <==> p !in known && 0 < |p| <= n && p <= k {
        assert p <= k && |p| == n <==> p == k[..n];
      }
    }
  }

  lemma NoRepeatsConcat(a: seq<Word>, b: seq<Word>)
    requires NoRepeats(a) && NoRepeats(b) && forall w :: w in a ==> w !in b
    ensures NoRepeats(a + b)
  {
    forall i, j | 0 <= i < j < |a + b| ensures (a + b)[i] != (a + b)[j] {
      if i < |a| <= j { assert a[i] in a && b[j - |a|] in b; }
    }
  }

  /** One more keyword keeps the stored prefixes exact. */
  lemma AddOneOk(keywords: seq<Word>, prefixes: seq<Word>, k: Word)
    requires SnapOk(keywords, prefixes) && k != [] && k !in keywords
    ensures SnapOk(keywords + [k], prefixes + NewPrefixes(prefixes, k, |k|))
  {
    var more := NewPrefixes(prefixes, k, |k|);
    NewPrefixesExact(prefixes, k, |k|);
    NoRepeatsConcat(keywords, [k]);
    NoRepeatsConcat(prefixes, more);
    forall p ensures p in prefixes + more <==> p == [] || PrefixOf(keywords + [k], p) {
      assert PrefixOf(keywords + [k], p) <==> PrefixOf(keywords, p) || p <= k by {
        if PrefixOf(keywords, p) {
          var w :| w in keywords && p <= w;
          assert w in keywords + [k];
        }
        if p <= k { assert k in keywords + [k]; }
      }
      assert p in prefixes <==> p == [] || PrefixOf(keywords, p);
    }
  }

  lemma {:induction false} ExtendedOk(keywords: seq<Word>, prefixes: seq<Word>, added: seq<Word>)
    requires SnapOk(keywords, prefixes) && NoRepeats(added) && forall k :: k in added ==> k != [] && k !in keywords
    ensures SnapOk(keywords + added, Extended(prefixes, added))
  {
    if added == [] {
      assert keywords + added == keywords;
    } else {
      var n := |added| - 1;
      assert added == added[..n] + [added[n]];
      ExtendedOk(keywords, prefixes, added[..n]);
      assert added[n] !in added[..n];
      AddOneOk(keywords + added[..n], Extended(prefixes, added[..n]), added[n]);
      assert keywords + added == keywords + added[..n] + [added[n]];
    }
  }

  lemma {:induction false} ExtendedPrefix(prefixes: seq<Word>, added: seq<Word>)
    ensures prefixes <= Extended(prefixes, added)
  {
    if added != [] { ExtendedPrefix(prefixes, added[..|added| - 1]); }
  }

  lemma {:induction false} ExtendedSplit(prefixes: seq<Word>, a: seq<Word>, b: seq<Word>)
    ensures Extended(prefixes, a + b) == Extended(Extended(prefixes, a), b)
    decreases |b|
  {
    if b == [] {
      assert a + b == a;
    } else {
      ExtendedSplit(prefixes, a, b[..|b| - 1]);
      assert (a + b)[..|a + b| - 1] == a + b[..|b| - 1];
    }
  }

  // ----- plans as values -----

  datatype Snap = Snap(keywords: seq<Word>, prefixes: seq<Word>)

  ghost predicate Ok(s: Snap) { SnapOk(s.keywords, s.prefixes) }

  /** All output lists of a snapshot. */
  function Full(s: Snap): OutputMap {
    map p | p in s.prefixes && p != [] && KeywordSuffixes(Members(s.keywords), p) != [] ::
      KeywordSuffixes(Members(s.keywords), p)
  }

  lemma FullIsFull(s: Snap)
    requires Ok(s)
    ensures IsFull(s.keywords, Full(s))
  {
  }

  function AddSnap(s: Snap, batch: seq<Word>): Snap {
    var added := Fresh(s.keywords, batch);
    Snap(s.keywords + added, Extended(s.prefixes, added))
  }

  /** Adding keeps what is there, in its place, and appends exactly the batch's non-empty
      new keywords. */
  lemma AddAdds(s: Snap, batch: seq<Word>)
    ensures s.keywords <= AddSnap(s, batch).keywords && AddSnap(s, batch).keywords == s.keywords + Fresh(s.keywords, batch)
    ensures forall k :: k in AddSnap(s, batch).keywords <==> k in s.keywords || (k in batch && k != [])
  {
    FreshExact(s.keywords, batch);
  }

  lemma AddOk(s: Snap, batch: seq<Word>)
    requires Ok(s)
    ensures Ok(AddSnap(s, batch))
  {
    FreshExact(s.keywords, batch);
    ExtendedOk(s.keywords, s.prefixes, Fresh(s.keywords, batch));
  }

  /** The delta of an add, written over the old output lists, gives all lists of the
      new snapshot. */
  lemma DeltaCompletes(s: Snap, batch: seq<Word>)
    requires Ok(s)
    ensures Full(s) + Full(AddSnap(s, batch)) == Full(AddSnap(s, batch))
  {
    var t := AddSnap(s, batch);
    ExtendedPrefix(s.prefixes, Fresh(s.keywords, batch));
    forall p | p in Full(s) ensures p in Full(t) {
      var k := Full(s)[p][0];
      assert k in Full(s)[p];
      KeywordSuffixesExact(Members(s.keywords), p, k);
      KeywordSuffixesExact(Members(t.keywords), p, k);
    }
  }

  /** Applying the keywords one at a time. */
  function AddEach(s: Snap, batch: seq<Word>): Snap {
    if batch == [] then s else AddSnap(AddEach(s, batch[..|batch| - 1]), [batch[|batch| - 1]])
  }

  /** Planning a batch is folding the single-keyword plan over it. */
  lemma {:induction false} BatchIsFold(s: Snap, batch: seq<Word>)
    ensures AddSnap(s, batch) == AddEach(s, batch)
  {
    if batch == [] {
      assert s.keywords + [] == s.keywords;
    } else {
      var n := |batch| - 1;
      var front, k := batch[..n], batch[n];
      BatchIsFold(s, front);
      var a := Fresh(s.keywords, front);
      var b := Fresh(s.keywords + a, [k]);
      assert [k][..0] == [];
      assert Fresh(s.keywords + a, []) == [];
      assert Fresh(s.keywords, batch) == a + b;
      assert s.keywords + (a + b) == s.keywords + a + b;
      ExtendedSplit(s.prefixes, a, b);
    }
  }

  /** What an add writes over the outputs hash; nothing when no keyword is new. */
  function Delta(s: Snap, batch: seq<Word>): OutputMap {
    if Fresh(s.keywords, batch) == [] then map[] else Full(AddSnap(s, batch))
  }

  /** The outputs hash after adding the keywords one at a time, each delta written over
      the hash of the one before. */
  function HashEach(s: Snap, hash: OutputMap, batch: seq<Word>): OutputMap {
    if batch == [] then hash
    else
      var front := batch[..|batch| - 1];
      HashEach(s, hash, front) + Delta(AddEach(s, front), [batch[|batch| - 1]])
  }

  /** One delta brings a complete hash up to date. */
  lemma DeltaUpdates(s: Snap, hash: OutputMap, batch: seq<Word>)
    requires Ok(s) && IsFull(s.keywords, hash)
    ensures hash + Delta(s, batch) == Full(AddSnap(s, batch)) && IsFull(AddSnap(s, batch).keywords, hash + Delta(s, batch))
  {
    hide Fresh, Extended, IsFull, Full;
    FullIsFull(s);
    FullUnique(s.keywords, hash, Full(s));
    AddOk(s, batch);
    FullIsFull(AddSnap(s, batch));
    DeltaCompletes(s, batch);
    if Fresh(s.keywords, batch) == [] {
      NothingAdded(s.prefixes);
      assert s.keywords + [] == s.keywords && hash + map[] == hash;
    }
  }

  /** The deltas of the single-keyword plans, applied in turn, leave the same hash as
      the one delta of the batch. */
  lemma {:induction false} BatchHashIsFold(s: Snap, hash: OutputMap, batch: seq<Word>)
    requires Ok(s) && IsFull(s.keywords, hash)
    ensures HashEach(s, hash, batch) == hash + Delta(s, batch) == Full(AddEach(s, batch))
  {
    hide Fresh, Extended, IsFull, Full, Delta;
    BatchIsFold(s, batch);
    DeltaUpdates(s, hash, batch);
    if batch == [] {
      NoDelta(s);
      assert hash + map[] == hash;
    } else {
      var front := batch[..|batch| - 1];
      BatchHashIsFold(s, hash, front);
      BatchIsFold(s, front);
      AddOk(s, front);
      DeltaUpdates(s, hash, front);
      DeltaUpdates(AddEach(s, front), HashEach(s, hash, front), [batch[|batch| - 1]]);
    }
  }

  lemma NoDelta(s: Snap)
    ensures Delta(s, []) == map[]
  {
  }

  // ----- removing -----

  function Without(keywords: seq<Word>, doomed: set<Word>): seq<Word> {
    if keywords == [] then []
    else
      var front, k := Without(keywords[..|keywords| - 1], doomed), keywords[|keywords| - 1];
      if k in doomed then front else front + [k]
  }

  function Only(keywords: seq<Word>, doomed: set<Word>): seq<Word> {
    if keywords == [] then []
    else
      var front, k := Only(keywords[..|keywords| - 1], doomed), keywords[|keywords| - 1];
      if k in doomed then front + [k] else front
  }

  lemma {:induction false} WithoutExact(keywords: seq<Word>, doomed: set<Word>)
    ensures forall k :: k in Without(keywords, doomed) <==> k in keywords && k !in doomed
    ensures forall k :: k in Only(keywords, doomed) <==> k in keywords && k in doomed
    ensures NoRepeats(keywords) ==> NoRepeats(Without(keywords, doomed))
  {
    if keywords != [] {
      var n := |keywords| - 1;
      WithoutExact(keywords[..n], doomed);
      assert keywords == keywords[..n] + [keywords[n]];
      if NoRepeats(keywords) { assert keywords[n] !in keywords[..n]; }
    }
  }

  predicate StartsSome(keywords: seq<Word>, p: Word) { exists i :: 0 <= i < |keywords| && p <= keywords[i] }

  /** The non-empty prefixes that some keyword still needs. */
  function Surviving(prefixes: seq<Word>, keywords: seq<Word>): seq<Word> {
    if prefixes == [] then []
    else
      var front, p := Surviving(prefixes[..|prefixes| - 1], keywords), prefixes[|prefixes| - 1];
      if p != [] && StartsSome(keywords, p) then front + [p] else front
  }

  lemma StartsSomeIsPrefix(keywords: seq<Word>, p: Word)
    ensures StartsSome(keywords, p) <==> PrefixOf(keywords, p)
  {
    if PrefixOf(keywords, p) {
      var k :| k in keywords && p <= k;
      var i :| 0 <= i < |keywords| && keywords[i] == k;
    }
    if i :| 0 <= i < |keywords| && p <= keywords[i] { assert keywords[i] in keywords; }
  }

  lemma {:induction false} SurvivingExact(prefixes: seq<Word>, keywords: seq<Word>)
    ensures forall p :: p in Surviving(prefixes, keywords) <==> p in prefixes && p != [] && PrefixOf(keywords, p)
    ensures NoRepeats(prefixes) ==> NoRepeats(Surviving(prefixes, keywords))
  {
    if prefixes != [] {
      var n := |prefixes| - 1;
      SurvivingExact(prefixes[..n], keywords);
      assert prefixes == prefixes[..n] + [prefixes[n]];
      StartsSomeIsPrefix(keywords, prefixes[n]);
      if NoRepeats(prefixes) { assert prefixes[n] !in prefixes[..n]; }
    }
  }

  function RemoveSnap(s: Snap, doomed: set<Word>): Snap {
    if Only(s.keywords, doomed) == [] then s
    else
      var left := Without(s.keywords, doomed);
      Snap(left, [[]] + Surviving(s.prefixes, left))
  }

  /** `a` comes before `b` somewhere. */
  ghost predicate Precedes(s: seq<Word>, a: Word, b: Word) { exists i, j :: 0 <= i < j < |s| && s[i] == a && s[j] == b }

  ghost predicate KeepsOrder(part: seq<Word>, whole: seq<Word>) {
    forall i, j :: 0 <= i < j < |part| ==> Precedes(whole, part[i], part[j])
  }

  /** Removing drops exactly the doomed keywords and keeps the others in order. */
  lemma RemoveRemoves(s: Snap, doomed: set<Word>)
    ensures forall k :: k in RemoveSnap(s, doomed).keywords <==> k in s.keywords && k !in doomed
    ensures KeepsOrder(RemoveSnap(s, doomed).keywords, s.keywords)
    ensures Only(s.keywords, doomed) == [] ==> RemoveSnap(s, doomed) == s
  {
    WithoutExact(s.keywords, doomed);
    WithoutOrder(s.keywords, doomed);
  }

  lemma {:induction false} WithoutOrder(keywords: seq<Word>, doomed: set<Word>)
    ensures KeepsOrder(Without(keywords, doomed), keywords)
  {
    if keywords != [] {
      var n := |keywords| - 1;
      var front, left := Without(keywords[..n], doomed), Without(keywords, doomed);
      WithoutOrder(keywords[..n], doomed);
      WithoutExact(keywords[..n], doomed);
      forall i, j | 0 <= i < j < |left| ensures Precedes(keywords, left[i], left[j]) {
        if j < |front| {
          assert Precedes(keywords[..n], front[i], front[j]);
          var a, b :| 0 <= a < b < n && keywords[..n][a] == front[i] && keywords[..n][b] == front[j];
          assert keywords[a] == left[i] && keywords[b] == left[j];
        } else {
          assert front[i] in keywords[..n];
          var a :| 0 <= a < n && keywords[..n][a] == front[i];
          assert keywords[a] == left[i] && keywords[n] == left[j];
        }
      }
    }
  }

  lemma RemoveOk(s: Snap, doomed: set<Word>)
    requires Ok(s)
    ensures Ok(RemoveSnap(s, doomed))
  {
    var left := Without(s.keywords, doomed);
    var kept := Surviving(s.prefixes, left);
    WithoutExact(s.keywords, doomed);
    SurvivingExact(s.prefixes, left);
    NoRepeatsConcat([[]], kept);
    forall p ensures p in [[]] + kept <==> p == [] || PrefixOf(left, p) {
      if PrefixOf(left, p) {
        var k :| k in left && p <= k;
        assert PrefixOf(s.keywords, p);
      }
    }
  }

  lemma {:induction false} WithoutAdded(a: seq<Word>, b: seq<Word>, doomed: set<Word>)
    requires (forall k :: k in a ==> k !in doomed) && (forall k :: k in b ==> k in doomed)
    ensures Without(a + b, doomed) == a && Only(a + b, doomed) == b
    decreases |a| + |b|
  {
    if b != [] {
      assert (a + b)[..|a + b| - 1] == a + b[..|b| - 1];
      WithoutAdded(a, b[..|b| - 1], doomed);
      assert b == b[..|b| - 1] + [b[|b| - 1]];
    } else if a != [] {
      assert a + b == a && a[..|a| - 1] + [] == a[..|a| - 1];
      WithoutAdded(a[..|a| - 1], [], doomed);
      assert a == a[..|a| - 1] + [a[|a| - 1]];
    }
  }

  lemma {:induction false} SurvivingSplit(a: seq<Word>, b: seq<Word>, keywords: seq<Word>)
    requires forall i :: 0 <= i < |a| ==> a[i] != [] && PrefixOf(keywords, a[i])
    requires forall i :: 0 <= i < |b| ==> !PrefixOf(keywords, b[i])
    ensures Surviving([[]] + a + b, keywords) == a
    decreases |a| + |b|
  {
    var all := [[]] + a + b;
    if b != [] {
      StartsSomeIsPrefix(keywords, b[|b| - 1]);
      assert all[..|all| - 1] == [[]] + a + b[..|b| - 1];
      SurvivingSplit(a, b[..|b| - 1], keywords);
    } else if a != [] {
      StartsSomeIsPrefix(keywords, a[|a| - 1]);
      assert all[..|all| - 1] == [[]] + a[..|a| - 1] + [];
      SurvivingSplit(a[..|a| - 1], [], keywords);
      assert a == a[..|a| - 1] + [a[|a| - 1]];
    } else {
      assert all[..0] == [];
    }
  }

  /** Removing what was just added restores keywords and prefixes, in order, and with
      them the output lists. */
  lemma RemoveUndoesAdd(s: Snap, batch: seq<Word>)
    requires Ok(s)
    ensures RemoveSnap(AddSnap(s, batch), Members(Fresh(s.keywords, batch))) == s
    ensures forall hash :: IsFull(s.keywords, hash) ==> Full(RemoveSnap(AddSnap(s, batch), Members(Fresh(s.keywords, batch)))) == hash
  {
    hide SnapOk, Fresh, Extended, Without, Only, Surviving, Full, IsFull;
    forall hash | IsFull(s.keywords, hash) ensures Full(s) == hash {
      FullIsFull(s);
      FullUnique(s.keywords, Full(s), hash);
    }
    var added := Fresh(s.keywords, batch);
    FreshExact(s.keywords, batch);
    WithoutAdded(s.keywords, added, Members(added));
    if added == [] {
      assert s.keywords + added == s.keywords;
      NothingAdded(s.prefixes);
    } else {
      ExtendedPrefix(s.prefixes, added);
      AddOk(s, batch);
      OldPrefixesSurvive(s, AddSnap(s, batch));
    }
  }

  lemma OldPrefixesSurvive(s: Snap, t: Snap)
    requires Ok(s) && Ok(t) && s.prefixes <= t.prefixes
    ensures [[]] + Surviving(t.prefixes, s.keywords) == s.prefixes
  {
    var n := |s.prefixes|;
    var a, b := s.prefixes[1..], t.prefixes[n..];
    assert s.prefixes == [[]] + a && t.prefixes == [[]] + a + b;
    forall i | 0 <= i < |a| ensures a[i] != [] && PrefixOf(s.keywords, a[i]) {
      assert a[i] == s.prefixes[i + 1] && s.prefixes[i + 1] in s.prefixes;
    }
    forall i | 0 <= i < |b| ensures !PrefixOf(s.keywords, b[i]) {
      assert b[i] == t.prefixes[n + i];
      assert b[i] !in s.prefixes;
    }
    SurvivingSplit(a, b, s.keywords);
  }

  // ----- the planner -----

  /** The snapshot that planning updates in place. */
  class TrieSnapshot {
    var keywords: seq<Word>
    var prefixes: seq<Word>

    constructor (keywords: seq<Word>, prefixes: seq<Word>)
      ensures this.keywords == keywords && this.prefixes == prefixes
    {
      this.keywords, this.prefixes := keywords, prefixes;
    }

    ghost function Value(): Snap
      reads this
    {
      Snap(keywords, prefixes)
    }
  }

  /** Appends the prefixes of `k` that are not known yet. */
  method AddPrefixes(k: Word, prefixSet: set<Word>, newPrefixes: seq<Word>, ghost stored: seq<Word>)
    returns (known: set<Word>, added: seq<Word>)
    requires prefixSet == Members(stored + newPrefixes)
    ensures added == newPrefixes + NewPrefixes(stored + newPrefixes, k, |k|) && known == Members(stored + added)
  {
    ghost var base := stored + newPrefixes;
    known, added := prefixSet, newPrefixes;
    assert newPrefixes + [] == newPrefixes;
    for n := 1 to |k| + 1
      invariant added == newPrefixes + NewPrefixes(base, k, n - 1) && known == Members(stored + added)
    {
      var prefix := k[..n];
      assert forall w :: w in stored + added <==> w in base || w in NewPrefixes(base, k, n - 1);
      if prefix !in known {
        assert stored + (added + [prefix]) == stored + added + [prefix];
        added := added + [prefix];
        known := known + {prefix};
      }
    }
  }

  /** Collects a batch's new keywords and their new prefixes. */
  method CollectNew(keywords: seq<Word>, prefixes: seq<Word>, batch: seq<Word>)
    returns (keywordSet: set<Word>, prefixSet: set<Word>, newPrefixes: seq<Word>, added: seq<Word>)
    ensures added == Fresh(keywords, batch) && prefixes + newPrefixes == Extended(prefixes, added)
    ensures keywordSet == Members(keywords + added) && prefixSet == Members(prefixes + newPrefixes)
  {
    hide NewPrefixes;
    keywordSet, prefixSet, newPrefixes, added := set w | w in keywords, set w | w in prefixes, [], [];
    assert keywords + [] == keywords && prefixes + [] == prefixes;
    for j := 0 to |batch|
      invariant added == Fresh(keywords, batch[..j]) && prefixes + newPrefixes == Extended(prefixes, added)
      invariant keywordSet == Members(keywords + added) && prefixSet == Members(prefixes + newPrefixes)
    {
      assert batch[..j + 1][..j] == batch[..j];
      var keyword := batch[j];
      if keyword != [] && keyword !in keywordSet {
        keywordSet := keywordSet + {keyword};
        assert keywords + (added + [keyword]) == keywords + added + [keyword];
        assert (added + [keyword])[..|added|] == added;
        added := added + [keyword];
        ghost var was := newPrefixes;
        prefixSet, newPrefixes := AddPrefixes(keyword, prefixSet, newPrefixes, prefixes);
        assert prefixes + newPrefixes == prefixes + was + NewPrefixes(prefixes + was, keyword, |keyword|);
      }
    }
    assert batch[..|batch|] == batch;
  }

  /** One mutation for a whole batch of additions. */
  method PlanAddMany(snap: TrieSnapshot, batch: seq<Word>) returns (outputs: OutputMap, added: seq<Word>)
    requires Ok(snap.Value())
    modifies snap
    ensures added == old(Fresh(snap.keywords, batch)) && snap.Value() == old(AddSnap(snap.Value(), batch))
    ensures snap.keywords == old(snap.keywords) + added && Ok(snap.Value())
    ensures forall k :: k in snap.keywords <==> k in old(snap.keywords) || (k in batch && k != [])
    ensures forall k :: k in added <==> k in batch && k != [] && k !in old(snap.keywords)
    ensures if added == [] then outputs == map[] && snap.Value() == old(snap.Value()) else IsFull(snap.keywords, outputs)
  {
    hide SnapOk, KeywordSuffixes, NewPrefixes, Fresh, Extended, IsFull;
    ghost var before := snap.Value();
    FreshExact(before.keywords, batch);
    AddAdds(before, batch);
    var keywordSet, prefixSet, newPrefixes;
    keywordSet, prefixSet, newPrefixes, added := CollectNew(snap.keywords, snap.prefixes, batch);
    if added == [] {
      NothingAdded(snap.prefixes);
      assert snap.keywords + [] == snap.keywords;
      return map[], [];
    }
    AddOk(before, batch);
    KeywordsArePrefixes(AddSnap(before, batch));
    outputs := OutputsFor(newPrefixes, prefixSet, keywordSet, map[]);
    outputs := OutputsFor(snap.prefixes, prefixSet, keywordSet, outputs);
    snap.keywords := snap.keywords + added;
    snap.prefixes := snap.prefixes + newPrefixes;
    assert outputs == Full(snap.Value());
    FullIsFull(snap.Value());
  }

  lemma NothingAdded(prefixes: seq<Word>)
    ensures Extended(prefixes, []) == prefixes
  {
  }

  lemma KeywordsArePrefixes(s: Snap)
    requires Ok(s)
    ensures Members(s.keywords) <= Members(s.prefixes)
  {
    forall k | k in s.keywords ensures k in s.prefixes { assert PrefixOf(s.keywords, k); }
  }

  method HasExtension(keywords: seq<Word>, p: Word) returns (found: bool)
    ensures found == StartsSome(keywords, p)
  {
    for i := 0 to |keywords|
      invariant forall j :: 0 <= j < i ==> !(p <= keywords[j])
    {
      if p <= keywords[i] { return true; }
    }
    return false;
  }

  /** Splits off the doomed keywords. */
  method DropKeywords(keywords: seq<Word>, doomed: set<Word>) returns (left: seq<Word>, removed: seq<Word>)
    ensures left == Without(keywords, doomed) && removed == Only(keywords, doomed)
  {
    left, removed := [], [];
    for i := 0 to |keywords|
      invariant left == Without(keywords[..i], doomed) && removed == Only(keywords[..i], doomed)
    {
      assert keywords[..i + 1][..i] == keywords[..i];
      if keywords[i] in doomed { removed := removed + [keywords[i]]; } else { left := left + [keywords[i]]; }
    }
    assert keywords[..|keywords|] == keywords;
  }

  /** Keeps the prefixes still reachable from a surviving keyword. */
  method DropPrefixes(prefixes: seq<Word>, keywords: seq<Word>) returns (left: seq<Word>)
    ensures left == [[]] + Surviving(prefixes, keywords)
  {
    left := [[]];
    for i := 0 to |prefixes|
      invariant left == [[]] + Surviving(prefixes[..i], keywords)
    {
      assert prefixes[..i + 1][..i] == prefixes[..i];
      if prefixes[i] != [] {
        var found := HasExtension(keywords, prefixes[i]);
        if found { left := left + [prefixes[i]]; }
      }
    }
    assert prefixes[..|prefixes|] == prefixes;
  }

  /** One mutation for a whole batch of removals, with all output lists. */
  method PlanRemoveMany(snap: TrieSnapshot, batch: seq<Word>) returns (outputs: OutputMap, removed: seq<Word>)
    requires Ok(snap.Value())
    modifies snap
    ensures removed == old(Only(snap.keywords, Members(batch))) && snap.Value() == old(RemoveSnap(snap.Value(), Members(batch)))
    ensures Ok(snap.Value()) && KeepsOrder(snap.keywords, old(snap.keywords))
    ensures forall k :: k in snap.keywords <==> k in old(snap.keywords) && k !in batch
    ensures forall k :: k in removed <==> k in old(snap.keywords) && k in batch
    ensures if removed == [] then outputs == map[] && snap.Value() == old(snap.Value()) else IsFull(snap.keywords, outputs)
  {
    hide SnapOk, KeywordSuffixes, Without, Only, Surviving, IsFull, KeepsOrder;
    ghost var before := snap.Value();
    var doomed := set w | w in batch;
    RemoveRemoves(before, doomed);
    WithoutExact(before.keywords, doomed);
    var newKeywords;
    newKeywords, removed := DropKeywords(snap.keywords, doomed);
    if removed == [] { return map[], []; }
    var newPrefixes := DropPrefixes(snap.prefixes, newKeywords);
    RemoveOk(before, doomed);
    KeywordsArePrefixes(RemoveSnap(before, doomed));
    outputs := OutputsFor(newPrefixes, Members(newPrefixes), Members(newKeywords), map[]);
    snap.keywords, snap.prefixes := newKeywords, newPrefixes;
    assert outputs == Full(snap.Value());
    FullIsFull(snap.Value());
  }
}
