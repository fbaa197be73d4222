/** The bounded scan (pkg/acor/scan.go): a pending window with one best candidate per
    start position and a heap of starts, flushed as soon as nothing longer can arrive. */
module Scan {
  import opened Matching
  import opened Automaton
  import opened OutputTables
  import opened Engines
  import opened Selection
  import Heaps

  function Identity(p: int): int { p }

  // ----- the window -----

  ghost predicate Once(s: seq<int>) { forall p {:trigger multiset(s)[p]} :: multiset(s)[p] <= 1 }

  lemma OnceMembers(s: seq<int>)
    requires Once(s)
    ensures forall i, j :: 0 <= i < j < |s| ==> s[i] != s[j]
  {
    forall i, j | 0 <= i < j < |s| ensures s[i] != s[j] {
      assert s == s[..j] + s[j..];
      var p, q := s[i], s[j];
      assert p in s[..j] && q in s[j..];
      assert multiset(s)[q] == multiset(s[..j])[q] + multiset(s[j..])[q];
    }
  }

  /** Distinct starts in a range of `k` positions. */
  lemma WindowBound(s: seq<int>, lo: int, k: nat)
    requires Once(s) && forall p :: p in s ==> lo <= p < lo + k
    ensures |s| <= k
  {
    OnceMembers(s);
    RangeExact(lo, k);
    forall i | 0 <= i < |s| ensures s[i] in Range(lo, k) {
      var p := s[i];
      assert p in s;
    }
    DistinctBound(s, Range(lo, k));
  }

  ghost function Range(lo: int, k: nat): set<int> { if k == 0 then {} else Range(lo, k - 1) + {lo + k - 1} }

  lemma {:induction false} RangeExact(lo: int, k: nat)
    ensures |Range(lo, k)| == k && forall p :: p in Range(lo, k) <==> lo <= p < lo + k
  {
    if k > 0 { RangeExact(lo, k - 1); }
  }

  ghost function Slot(best: map<int, Match>, p: int): seq<Match> { if p in best then [best[p]] else [] }

  class SourceWindow {
    var best: map<int, Match>
    var starts: seq<int>
    var end: int

    constructor ()
      ensures best == map[] && starts == [] && end == 0
    {
      best, starts, end := map[], [], 0;
    }

    /** The starts form a duplicate-free heap over the candidates. */
    ghost predicate Ordered()
      reads this
    {
      && Heaps.Heap(starts, Identity) && Once(starts)
      && (forall p {:trigger p in starts} {:trigger p in best} :: p in starts <==> p in best)
      && (forall p {:trigger p in best} :: p in best ==> best[p].start == p)
    }

    /** Past the last selected end, the candidates are the best of `seen`. */
    ghost predicate Holds(seen: seq<Match>)
      reads this
    {
      Ordered() && forall p {:trigger Slot(best, p)} {:trigger BestAt(seen, p)} :: p >= end ==> BestAt(seen, p) == Slot(best, p)
    }

    lemma NoneLeft()
      requires Ordered()
      ensures starts == [] ==> forall p :: p !in best
    {
    }

    method Add(m: Match, ghost seen: seq<Match>)
      requires Holds(seen)
      modifies this
      ensures Holds(seen + [m]) && end == old(end)
      ensures forall p :: p in starts ==> p in old(starts) || p == m.start
    {
      hide Heaps.Heap, BestAt;
      forall p ensures BestAt(seen + [m], p) ==
                         if m.start == p && (BestAt(seen, p) == [] || m.end > BestAt(seen, p)[0].end) then [m] else BestAt(seen, p) {
        BestAtSnoc(seen, m, p);
      }
      if m.start < end { return; }
      assert BestAt(seen, m.start) == Slot(best, m.start);
      if m.start in best {
        if m.end > best[m.start].end { best := best[m.start := m]; }
        return;
      }
      assert m.start !in starts;
      PushOnce(starts, m.start);
      var pushed := Heaps.Push(starts, Identity, m.start);
      PushedMembers(starts, pushed, m.start);
      best, starts := best[m.start := m], pushed;
    }

    method Pop() returns (m: Match)
      requires Ordered() && |starts| > 0
      modifies this
      ensures Ordered() && end == old(end) && |starts| == old(|starts|) - 1
      ensures m.start == old(starts[0]) && m.start in old(best) && m == old(best)[m.start] && best == old(best) - {m.start}
      ensures forall p :: p in best ==> m.start <= p
      ensures forall p :: p in starts ==> p in old(starts)
    {
      hide Heaps.Heap;
      var start := starts[0];
      m := best[start];
      forall p | p in starts ensures start <= p {
        var i :| 0 <= i < |starts| && starts[i] == p;
        Heaps.RootIsLeast(starts, Identity, i);
      }
      var rest := Heaps.Pop(starts, Identity);
      PoppedMembers(starts, rest);
      best, starts := best - {start}, rest;
    }
  }

  lemma PushOnce(s: seq<int>, p: int)
    requires Once(s) && p !in s
    ensures forall x :: (multiset(s) + multiset{p})[x] <= 1
  {
  }

  lemma PushedMembers(s: seq<int>, r: seq<int>, p: int)
    requires multiset(r) == multiset(s) + multiset{p} && Once(s) && p !in s
    ensures Once(r) && forall x :: x in r <==> x in s || x == p
  {
    forall x ensures x in r <==> x in s || x == p { assert x in r <==> x in multiset(r); }
  }

  lemma PoppedMembers(s: seq<int>, r: seq<int>)
    requires s != [] && multiset(r) + multiset{s[0]} == multiset(s) && Once(s)
    ensures Once(r) && forall x :: x in r <==> x in s && x != s[0]
  {
    forall x ensures multiset(r)[x] <= 1 && (x in r <==> x in s && x != s[0]) {
      assert (multiset(r) + multiset{s[0]})[x] == multiset(s)[x];
      assert (x in r <==> x in multiset(r)) && (x in s <==> x in multiset(s));
    }
  }

  // ----- the scanner -----

  datatype Options = Options(leftmost: bool, maxMatches: nat, maxCandidates: nat, keep: Match -> bool)

  /** What the scan is to return: the eligible matches, or their leftmost-longest
      selection. */
  function Selected(o: Options, all: seq<Match>, n: nat): seq<Match> {
    if o.leftmost then Greedy(Kept(all, o.keep), 0, n) else Kept(all, o.keep)
  }

  /** Matches of a text of `n` runes by keywords of at most `longest` runes. */
  ghost predicate MatchesOk(all: seq<Match>, n: nat, longest: nat) {
    SpansOk(all, n) && forall m :: m in all ==> m.end - m.start <= longest
  }

  class SourceScanner {
    const opts: Options
    const length: nat
    const longest: nat
    const pending: SourceWindow
    var matches: seq<Match>
    var truncated: bool
    var consumed: nat
    var candidates: nat
    var stopped: bool
    var overBudget: bool
    ghost const all: seq<Match>

    constructor (opts: Options, length: nat, longest: nat, ghost all: seq<Match>)
      requires MatchesOk(all, length, longest)
      ensures Valid() && !Done() && candidates == 0 && consumed == 0
      ensures this.opts == opts && this.length == length && this.longest == longest && this.all == all && fresh(pending)
    {
      this.opts, this.length, this.longest, this.all := opts, length, longest, all;
      pending := new SourceWindow();
      matches, truncated, consumed, candidates, stopped, overBudget := [], false, 0, 0, false, false;
      new;
      assert all[..0] == [];
      assert Seen() == [];
    }

    ghost function Seen(): seq<Match>
      requires candidates <= |all|
      reads this
    {
      Kept(all[..candidates], opts.keep)
    }

    predicate Done()
      reads this
    {
      stopped || overBudget
    }

    ghost predicate Valid()
      reads this, pending
    {
      && MatchesOk(all, length, longest) && candidates <= |all| && consumed <= length
      && truncated == stopped && |matches| <= opts.maxMatches
      && (overBudget ==> opts.maxCandidates < |all|) && (!overBudget ==> candidates <= opts.maxCandidates)
      && pending.Ordered() && |pending.starts| <= longest
      && (stopped ==> |matches| == opts.maxMatches < |Selected(opts, all, length)| && matches <= Selected(opts, all, length))
      && (!Done() && !opts.leftmost ==> matches == Seen() && pending.starts == [])
      && (!Done() && opts.leftmost ==> Scanning())
    }

    /** The selection is what has been kept so far and what the rest will give. */
    ghost predicate Scanning()
      requires candidates <= |all|
      reads this, pending
    {
      && pending.Holds(Seen()) && 0 <= pending.end <= length
      && Selected(opts, all, length) == matches + Greedy(Kept(all, opts.keep), pending.end, length)
      && (forall p :: p in pending.starts ==> consumed - longest <= p < consumed)
    }

    method Append(m: Match) returns (more: bool)
      requires |matches| <= opts.maxMatches
      modifies this`matches, this`truncated, this`stopped
      ensures more == (old(|matches|) != opts.maxMatches)
      ensures more ==> matches == old(matches) + [m] && truncated == old(truncated) && stopped == old(stopped)
      ensures !more ==> matches == old(matches) && truncated && stopped
    {
      if |matches| == opts.maxMatches {
        truncated, stopped := true, true;
        return false;
      }
      matches := matches + [m];
      return true;
    }

    /** Takes the least candidate: drops it if it overlaps the last kept match. */
    method TakeLeast()
      requires Valid() && !Done() && opts.leftmost && |pending.starts| > 0
      requires forall m :: m in all[candidates..] ==> pending.starts[0] < m.start
      modifies this`matches, this`truncated, this`stopped, pending
      ensures Valid() && !overBudget && |pending.starts| == old(|pending.starts|) - 1
    {
      hide Greedy, BestAt, Heaps.Heap, Kept, SpansOk;
      LeastStart();
      var start := pending.starts[0];
      assert start in pending.starts;
      ghost var best := pending.best;
      var m := pending.Pop();
      if m.start < pending.end {
        assert forall p :: p >= pending.end ==> Slot(pending.best, p) == Slot(best, p);
        return;
      }
      NextSelected(all, candidates, opts.keep, best, pending.end, start, length);
      ghost var rest := Greedy(Kept(all, opts.keep), m.end, length);
      assert matches + ([m] + rest) == (matches + [m]) + rest;
      var more := Append(m);
      if !more { return; }
      assert forall p :: p >= m.end ==> Slot(pending.best, p) == Slot(best, p);
      pending.end := m.end;
    }

    /** Takes every candidate that nothing to come can beat; at the end, all of them. */
    method Flush(final: bool)
      requires Valid() && !Done() && opts.leftmost
      requires if final then candidates == |all| else forall m :: m in all[candidates..] ==> consumed - m.start < longest
      modifies this`matches, this`truncated, this`stopped, pending
      ensures Valid() && !overBudget
      ensures !stopped && !final ==> forall p :: p in pending.starts ==> consumed - p < longest
      ensures !stopped && final ==> matches == Selected(opts, all, length)
    {
      hide Greedy, BestAt, Heaps.Heap, Kept, SpansOk;
      while |pending.starts| > 0 && !stopped
        invariant Valid() && !overBudget
        decreases |pending.starts|
      {
        if !final && consumed - pending.starts[0] < longest {
          LeastStart();
          return;
        }
        TakeLeast();
      }
      if !stopped {
        pending.NoneLeft();
        NothingPending(all, candidates, opts.keep, pending.best, pending.end, length, final);
      }
    }

    lemma LeastStart()
      requires pending.Ordered() && |pending.starts| > 0
      ensures forall p :: p in pending.best ==> pending.starts[0] <= p
    {
      forall p | p in pending.best ensures pending.starts[0] <= p {
        assert p in pending.starts;
        var i :| 0 <= i < |pending.starts| && pending.starts[i] == p;
        Heaps.RootIsLeast(pending.starts, Identity, i);
      }
    }

    /** Hands out the next rune position, after flushing; false at the end of the text
        or when the scan has stopped. */
    method Next() returns (more: bool)
      requires Valid() && !Done() && forall m :: m in all[candidates..] ==> m.end > consumed
      modifies this`matches, this`truncated, this`stopped, this`consumed, pending
      ensures Valid() && !overBudget && more == (!stopped && old(consumed) < length)
      ensures consumed == old(consumed) + if more then 1 else 0
    {
      hide Greedy, BestAt, Heaps.Heap, Kept, SpansOk;
      LaterStarts();
      if opts.leftmost { Flush(false); }
      if stopped || consumed == length { return false; }
      consumed := consumed + 1;
      return true;
    }

    lemma LaterStarts()
      requires MatchesOk(all, length, longest) && candidates <= |all| && forall m :: m in all[candidates..] ==> m.end > consumed
      ensures forall m :: m in all[candidates..] ==> consumed - m.start < longest
    {
      forall m | m in all[candidates..] ensures consumed - m.start < longest { assert m in all; }
    }

    /** Takes one raw match; false asks the engine to stop. */
    method Emit(m: Match) returns (more: bool)
      requires Valid() && !Done() && candidates < |all| && m == all[candidates] && m.end == consumed
      modifies this`matches, this`truncated, this`stopped, this`candidates, this`overBudget, pending
      ensures Valid() && candidates == old(candidates) + 1 && more == !Done()
    {
      hide Greedy, BestAt, Heaps.Heap, Kept, SpansOk;
      ghost var seen := Seen();
      assert m in all;
      InText(all, length, longest, m);
      candidates := candidates + 1;
      assert all[..candidates] == all[..candidates - 1] + [m];
      KeptSnoc(all[..candidates - 1], m, opts.keep);
      if candidates > opts.maxCandidates {
        overBudget := true;
        return false;
      }
      if !opts.keep(m) {
        assert seen + [] == seen;
        return true;
      }
      if opts.leftmost {
        pending.Add(m, seen);
        WindowBound(pending.starts, consumed - longest, longest);
        return true;
      }
      SeenPrefix(all, candidates, opts.keep);
      more := Append(m);
    }
  }

  lemma InText(all: seq<Match>, n: nat, longest: nat, m: Match)
    requires MatchesOk(all, n, longest) && m in all
    ensures 0 <= m.start < m.end <= n && m.end - m.start <= longest
  {
  }

  lemma SeenPrefix(all: seq<Match>, c: nat, keep: Match -> bool)
    requires c <= |all|
    ensures Kept(all[..c], keep) <= Kept(all, keep)
  {
    hide Kept;
    var a, b := all[..c], all[c..];
    KeptSplit(a, b, keep);
    assert a + b == all;
  }

  /** The least candidate is the next match of the selection, once nothing that is
      still to come starts so early. */
  lemma NextSelected(all: seq<Match>, c: nat, keep: Match -> bool, best: map<int, Match>, e: int, start: int, n: nat)
    requires c <= |all| && SpansOk(all, n) && 0 <= e <= n
    requires forall p :: p >= e ==> BestAt(Kept(all[..c], keep), p) == Slot(best, p)
    requires start in best && e <= start && forall p :: p in best ==> start <= p
    requires forall m :: m in all[c..] ==> m.start > start
    ensures start < best[start].end <= n
    ensures Greedy(Kept(all, keep), e, n) == [best[start]] + Greedy(Kept(all, keep), best[start].end, n)
  {
    hide Greedy, BestAt, Kept;
    var now, later, total := Kept(all[..c], keep), Kept(all[c..], keep), Kept(all, keep);
    assert all == all[..c] + all[c..];
    KeptSplit(all[..c], all[c..], keep);
    forall p | e <= p <= start ensures BestAt(total, p) == Slot(best, p) {
      forall m | m in later ensures m.start != p { KeptMembers(all[c..], keep, m); }
      BestAtSplit(now, later, p);
    }
    GreedySkips(total, e, start, n) by {
      KeptStart(all, keep, best[start], start, n);
      forall i | e <= i < start ensures BestAt(total, i) == [] { }
    }
    KeptStart(all, keep, best[start], start, n);
    GreedyAt(total, start, n);
  }

  lemma KeptStart(all: seq<Match>, keep: Match -> bool, m: Match, p: int, n: nat)
    requires SpansOk(all, n) && BestAt(Kept(all, keep), p) == [m]
    ensures p == m.start < m.end <= n
  {
    BestAtExact(Kept(all, keep), p);
    KeptMembers(all, keep, m);
  }

  lemma NothingPending(all: seq<Match>, c: nat, keep: Match -> bool, best: map<int, Match>, e: int, n: nat, final: bool)
    requires c <= |all| && 0 <= e <= n && forall p :: p !in best
    requires forall p :: p >= e ==> BestAt(Kept(all[..c], keep), p) == Slot(best, p)
    requires final ==> c == |all|
    ensures final ==> Greedy(Kept(all, keep), e, n) == []
  {
    if final {
      assert all[..c] == all;
      forall p | e <= p < n ensures BestAt(Kept(all, keep), p) == [] { assert Slot(best, p) == []; }
      GreedySkips(Kept(all, keep), e, n, n);
    }
  }

  // ----- scanning a text -----

  datatype ScanResult = WorkLimit | Found(matches: seq<Match>, truncated: bool)

  /** The scanner has been given every match of the runes it handed out. */
  ghost predicate GivenAll(dict: set<Word>, runes: Word, s: SourceScanner)
    reads s
  {
    && s.all == AllMatches(dict, runes) && s.length == |runes| && s.candidates <= |s.all| && s.consumed <= |runes|
    && s.all[..s.candidates] == AllMatches(dict, runes[..s.consumed])
  }

  /** The scanner and the automaton have read the same runes. */
  ghost predicate InStep(e: Engine, runes: Word, s: SourceScanner, state: int)
    reads s
  {
    GivenAll(e.dict, runes, s) && state in e.path && e.path[state] == Landing(e.dict, runes[..s.consumed])
  }

  /** What a scan returns: without an error, the beginning of the reference selection,
      cut off exactly when it is too long; an error means too many candidates. */
  ghost predicate ScanOk(dict: set<Word>, runes: Word, opts: Options, r: ScanResult) {
    var all := AllMatches(dict, runes);
    var sel := Selected(opts, all, |runes|);
    && (r.Found? ==>
          && r.matches == (if |sel| <= opts.maxMatches then sel else sel[..opts.maxMatches])
          && (r.truncated <==> |sel| > opts.maxMatches))
    && (r.WorkLimit? ==> |all| > opts.maxCandidates)
    && (r.Found? && !r.truncated ==> |all| <= opts.maxCandidates)
  }

  /** Feeds an engine's matches through a scanner. */
  method ScanSource(e: Engine, runes: Word, opts: Options) returns (r: ScanResult)
    requires e.Valid()
    ensures ScanOk(e.dict, runes, opts, r)
  {
    hide Engine.Valid, AllMatches, SourceScanner.Valid, Selected, InStep;
    e.LongestOk();
    MatchesInText(e.dict, e.maxKeywordRunes, runes);
    var s := new SourceScanner(opts, |runes|, e.maxKeywordRunes, AllMatches(e.dict, runes));
    var state, more := e.root, true;
    Begins(e, runes, s);
    while more
      invariant s.Valid() && e.Valid() && fresh(s) && fresh(s.pending) && s.opts == opts && s.all == AllMatches(e.dict, runes) && s.length == |runes|
      invariant !s.Done() ==> InStep(e, runes, s, state) && (more || s.consumed == |runes|)
      invariant s.consumed <= |runes| && (more ==> !s.Done())
      decreases more, |runes| - s.consumed
    {
      state, more := ReadRune(e, runes, s, state);
    }
    if !s.Done() { AllGiven(e, runes, s, state); }
    r := Finish(s);
  }

  lemma Begins(e: Engine, runes: Word, s: SourceScanner)
    requires e.Valid() && s.all == AllMatches(e.dict, runes) && s.length == |runes| && s.candidates == s.consumed == 0
    ensures InStep(e, runes, s, e.root)
  {
    hide Engine.Valid, AllMatches, Landing;
    e.OutOk();
    assert runes[..0] == [];
    NothingYet(e.dict);
  }

  lemma AllGiven(e: Engine, runes: Word, s: SourceScanner, state: int)
    requires InStep(e, runes, s, state) && s.consumed == |runes|
    ensures s.candidates == |s.all|
  {
    hide AllMatches, Landing;
    assert runes[..s.consumed] == runes;
  }

  /** Pulls one rune, advances the automaton and emits what ends there. */
  method ReadRune(e: Engine, runes: Word, s: SourceScanner, state: int) returns (next: int, more: bool)
    requires e.Valid() && s.Valid() && !s.Done() && InStep(e, runes, s, state) && {s, s.pending} !! e.Repr
    requires s as object != e && s.pending as object != e
    modifies s, s.pending
    ensures s.Valid() && e.Valid() && s.consumed <= |runes|
    ensures more ==> !s.Done() && s.consumed > old(s.consumed)
    ensures !s.Done() ==> InStep(e, runes, s, next) && (more || s.consumed == |runes|)
  {
    hide Engine.Valid, AllMatches, Landing, KeywordSuffixes, Spans, SourceScanner.Valid, TablesOk, KeywordList;
    next := state;
    var i := s.consumed;
    LaterEnds(e.dict, runes, i, s.candidates);
    more := s.Next();
    if !more { return; }
    ScanStep(e.dict, runes, i);
    HitsNext(e.dict, runes, i, s.candidates);
    var out;
    next, out := e.Step(state, runes[i], runes[..i]);
    var hits := [];
    e.OutOk();
    if out { hits := AppendChain(e.Out(), [], next, e.dict, e.path); }
    assert hits == KeywordSuffixes(e.dict, Landing(e.dict, runes[..i + 1]));
    SpansAt(hits, i + 1);
    more := EmitHits(s, hits);
  }

  lemma NothingYet(dict: set<Word>)
    ensures AllMatches(dict, []) == []
  {
  }

  lemma MatchesInText(dict: set<Word>, longest: nat, runes: Word)
    requires Longest(dict, longest)
    ensures MatchesOk(AllMatches(dict, runes), |runes|, longest)
  {
    hide AllMatches;
    forall m ensures m in AllMatches(dict, runes) <==> IsOccurrence(dict, runes, m) { AllMatchesExact(dict, runes, m); }
  }

  lemma LaterEnds(dict: set<Word>, runes: Word, i: nat, c: nat)
    requires i <= |runes| && c <= |AllMatches(dict, runes)| && AllMatches(dict, runes)[..c] == AllMatches(dict, runes[..i])
    ensures forall m :: m in AllMatches(dict, runes)[c..] ==> m.end > i
  {
    var all := AllMatches(dict, runes);
    AllMatchesOrdered(dict, runes);
    forall m | m in all[c..] ensures m.end > i {
      var n :| c <= n < |all| && all[n] == m;
      AllMatchesExact(dict, runes, m);
      AllMatchesExact(dict, runes[..i], m);
      OccursInPrefix(dict, runes, i, m);
      assert m !in all[..c];
    }
  }

  lemma OccursInPrefix(dict: set<Word>, runes: Word, i: nat, m: Match)
    requires i <= |runes|
    ensures IsOccurrence(dict, runes, m) && m.end <= i ==> IsOccurrence(dict, runes[..i], m)
  {
    if IsOccurrence(dict, runes, m) && m.end <= i { assert runes[..i][m.start..m.end] == runes[m.start..m.end]; }
  }

  /** The matches at the rune just read are the next of all matches. */
  lemma HitsNext(dict: set<Word>, runes: Word, i: nat, c: nat)
    requires i < |runes| && c <= |AllMatches(dict, runes)| && AllMatches(dict, runes)[..c] == AllMatches(dict, runes[..i])
    ensures var all, hits := AllMatches(dict, runes), Spans(KeywordSuffixes(dict, Landing(dict, runes[..i + 1])), i + 1);
            && c + |hits| <= |all| && all[c..c + |hits|] == hits
            && all[..c + |hits|] == AllMatches(dict, runes[..i + 1])
  {
    hide AllMatches, KeywordSuffixes, Landing, Spans, KeywordList;
    ScanStep(dict, runes, i);
    var rest := MatchesFrom(dict, runes, i + 1);
  }

  /** Emits the matches at one rune until the scanner asks to stop. */
  method EmitHits(s: SourceScanner, hits: seq<Word>) returns (more: bool)
    requires s.Valid() && !s.Done() && s.candidates + |hits| <= |s.all|
    requires s.all[s.candidates..s.candidates + |hits|] == Spans(hits, s.consumed)
    modifies s, s.pending
    ensures s.Valid() && s.consumed == old(s.consumed) && more == !s.Done()
    ensures more ==> s.candidates == old(s.candidates) + |hits|
  {
    hide SourceScanner.Valid, Spans;
    SpansAt(hits, s.consumed);
    ghost var from := s.candidates;
    for n := 0 to |hits|
      invariant s.Valid() && !s.Done() && s.consumed == old(s.consumed) && s.candidates == from + n
    {
      assert s.all[from..from + |hits|][n] == s.all[from + n];
      more := s.Emit(Match(hits[n], s.consumed - |hits[n]|, s.consumed));
      if !more { return; }
    }
    more := true;
  }

  /** The result, after a last flush. */
  method Finish(s: SourceScanner) returns (r: ScanResult)
    requires s.Valid() && (!s.Done() ==> s.candidates == |s.all|)
    modifies s, s.pending
    ensures var sel := Selected(s.opts, s.all, s.length);
            && (r.Found? ==>
                  && r.matches == (if |sel| <= s.opts.maxMatches then sel else sel[..s.opts.maxMatches])
                  && (r.truncated <==> |sel| > s.opts.maxMatches))
            && (r.WorkLimit? ==> |s.all| > s.opts.maxCandidates)
            && (r.Found? && !r.truncated ==> |s.all| <= s.opts.maxCandidates)
  {
    if s.overBudget { return WorkLimit; }
    if !s.stopped && s.opts.leftmost { s.Flush(true); }
    assert s.all[..|s.all|] == s.all;
    r := Found(s.matches, s.truncated);
  }

  /** What a scan selects from: every eligible occurrence, in reference order, or the
      disjoint ones among them that leave out only what they dominate. */
  lemma SelectedMeaning(o: Options, dict: set<Word>, runes: Word)
    ensures var sel := Selected(o, AllMatches(dict, runes), |runes|);
            && (forall m :: m in sel ==> IsOccurrence(dict, runes, m) && o.keep(m))
            && (!o.leftmost ==> Ordered(sel) && forall m :: IsOccurrence(dict, runes, m) && o.keep(m) ==> m in sel)
            && (o.leftmost ==> Disjoint(sel, 0) && forall m :: IsOccurrence(dict, runes, m) && o.keep(m) ==> Dominated(sel, m))
  {
    hide AllMatches, Kept, Disjoint, Dominated, Greedy, Ordered;
    var all := AllMatches(dict, runes);
    forall m ensures m in Kept(all, o.keep) <==> IsOccurrence(dict, runes, m) && o.keep(m) {
      AllMatchesExact(dict, runes, m);
      KeptMembers(all, o.keep, m);
    }
    AllMatchesOrdered(dict, runes);
    KeptOrdered(all, o.keep);
    GreedyMeaning(Kept(all, o.keep), 0, |runes|);
  }

  // ----- beside FindMatches -----

  /** The eligibility test of the options. */
  function Eligible(runes: Word, wholeWord: bool, isWord: Rune -> bool): Match -> bool {
    m => !wholeWord || WholeWord(runes, isWord, m)
  }

  /** FindMatches collects everything, filters and sorts: the whole reference selection. */
  method FindMatches(e: Engine, runes: Word, wholeWord: bool, isWord: Rune -> bool, leftmost: bool) returns (ms: seq<Match>)
    requires e.Valid()
    ensures forall o: Options :: o.leftmost == leftmost && o.keep == Eligible(runes, wholeWord, isWord) ==>
              ms == Selected(o, AllMatches(e.dict, runes), |runes|)
  {
    hide Engine.Valid, AllMatches, Greedy, Kept, SpansOk, DeliveredFrom;
    e.LongestOk();
    MatchesInText(e.dict, e.maxKeywordRunes, runes);
    ghost var all := AllMatches(e.dict, runes);
    ghost var keep := Eligible(runes, wholeWord, isWord);
    ms := e.MatchString(runes, _ => true);
    AcceptAll([], all, _ => true);
    assert [] + all == all;
    KeptOk(all, keep, |runes|);
    if wholeWord {
      SpansInText(all, |runes|);
      ms := FilterWholeWord(ms, runes, isWord);
      SameFilter(all, m => WholeWord(runes, isWord, m), keep);
    } else {
      KeepsAll(all, keep);
    }
    if leftmost {
      var a := new Match[|ms|](i requires 0 <= i < |ms| => ms[i]);
      assert a[..] == ms;
      var kept := LeftmostLongest(a, |runes|);
      ms := a[..kept];
    }
  }

  lemma SpansInText(all: seq<Match>, n: int)
    requires SpansOk(all, n)
    ensures forall m :: m in all ==> 0 <= m.start < m.end <= n
  {
  }

  lemma KeptOk(all: seq<Match>, keep: Match -> bool, n: int)
    requires SpansOk(all, n)
    ensures SpansOk(Kept(all, keep), n)
  {
    forall m ensures m in Kept(all, keep) <==> m in all && keep(m) { KeptMembers(all, keep, m); }
  }

  lemma {:induction false} SameFilter(ms: seq<Match>, f: Match -> bool, g: Match -> bool)
    requires forall m :: f(m) == g(m)
    ensures Kept(ms, f) == Kept(ms, g)
  {
    if ms != [] { SameFilter(ms[..|ms| - 1], f, g); }
  }

  lemma {:induction false} KeepsAll(ms: seq<Match>, keep: Match -> bool)
    requires forall m :: keep(m)
    ensures Kept(ms, keep) == ms
  {
    if ms != [] {
      KeepsAll(ms[..|ms| - 1], keep);
      assert ms == ms[..|ms| - 1] + [ms[|ms| - 1]];
    }
  }

  /** The bounded scan and FindMatches side by side: the scan's matches are the first
      ones of FindMatches, and it is truncated exactly when there are more. */
  method ScanBesideFindMatches(e: Engine, runes: Word, wholeWord: bool, isWord: Rune -> bool, leftmost: bool, maxMatches: nat, maxCandidates: nat)
    returns (r: ScanResult, ms: seq<Match>)
    requires e.Valid()
    ensures r.Found? ==> r.matches <= ms && |r.matches| == (if |ms| <= maxMatches then |ms| else maxMatches)
    ensures r.Found? ==> (r.truncated <==> |ms| > maxMatches)
  {
    hide Engine.Valid, Selected;
    var opts := Options(leftmost, maxMatches, maxCandidates, Eligible(runes, wholeWord, isWord));
    r := ScanSource(e, runes, opts);
    ms := FindMatches(e, runes, wholeWord, isWord, leftmost);
    assert ms == Selected(opts, AllMatches(e.dict, runes), |runes|);
  }
}
