/** The bounded scan over a composite engine, as versioned collections run it
    (pkg/acor/scan.go, internal/engine/engine_composite.go). */
module CompositeScan {
  import opened Matching
  import opened Automaton
  import opened Engines
  import opened Composite
  import opened CompositeStream
  import opened Scan

  lemma CompositeLongest(e: CompositeEngine)
    requires e.Valid()
    ensures Longest(e.dict, e.maxKeywordRunes)
  {
  }

  /** Feeds the merged matches of all shards through a scanner: the result a single
      engine over the union would give. */
  method ScanComposite(e: CompositeEngine, runes: Word, opts: Options) returns (r: ScanResult)
    requires e.Valid()
    ensures ScanOk(e.dict, runes, opts, r)
  {
    hide CompositeEngine.Valid, AllMatches, SourceScanner.Valid, Selected, AllRead, Longest;
    CompositeLongest(e);
    MatchesInText(e.dict, e.maxKeywordRunes, runes);
    var s := new SourceScanner(opts, |runes|, e.maxKeywordRunes, AllMatches(e.dict, runes));
    assert runes[..0] == [];
    NothingYet(e.dict);
    var more := |e.shards| != 0;
    if !more { NoShards(e, runes); }
    var states := Roots(e);
    while more
      invariant s.Valid() && e.Valid() && fresh(s) && fresh(s.pending) && s.opts == opts && s.all == AllMatches(e.dict, runes) && s.length == |runes|
      invariant !s.Done() ==> GivenAll(e.dict, runes, s) && AllRead(e, states, runes[..s.consumed])
      invariant !s.Done() && !more ==> s.candidates == |s.all|
      invariant s.consumed <= |runes| && (more ==> !s.Done())
      decreases more, |runes| - s.consumed
    {
      states, more := ReadRuneAll(e, runes, s, states);
    }
    r := Finish(s);
  }

  /** Pulls one rune, advances every shard and emits the merged matches that end there. */
  method ReadRuneAll(e: CompositeEngine, runes: Word, s: SourceScanner, states: seq<int>) returns (next: seq<int>, more: bool)
    requires e.Valid() && s.Valid() && !s.Done() && GivenAll(e.dict, runes, s) && AllRead(e, states, runes[..s.consumed])
    requires {s, s.pending} !! e.Repr && s as object != e && s.pending as object != e
    modifies s, s.pending
    ensures s.Valid() && e.Valid() && s.consumed <= |runes|
    ensures more ==> !s.Done() && s.consumed > old(s.consumed)
    ensures !s.Done() ==> GivenAll(e.dict, runes, s) && AllRead(e, next, runes[..s.consumed]) && (more || s.candidates == |s.all|)
  {
    hide CompositeEngine.Valid, AllMatches, Landing, KeywordSuffixes, Spans, SourceScanner.Valid, KeywordList, AllRead, DeliveredFrom, Stops, IsPath, IsSuffix;
    next := states;
    var i := s.consumed;
    LaterEnds(e.dict, runes, i, s.candidates);
    more := s.Next();
    if !more {
      assert i == |runes| ==> runes[..i] == runes;
      return;
    }
    ScanStep(e.dict, runes, i);
    HitsNext(e.dict, runes, i, s.candidates);
    LandingKeepsOutputs(e.dict, runes[..i + 1]);
    var cursors, ms, all;
    next, cursors := AdvanceAll(e, states, runes[i], runes[..i]);
    ms, all := EmitAll(e, cursors, i + 1, [], _ => true, runes[..i + 1]);
    ghost var hits := KeywordSuffixes(e.dict, runes[..i + 1]);
    AcceptAll([], Spans(hits, i + 1), _ => true);
    assert [] + Spans(hits, i + 1) == Spans(hits, i + 1);
    KeywordListSpans(hits, i + 1);
    SpansAt(hits, i + 1);
    more := EmitHits(s, KeywordList(ms));
  }
}
