/** What matching means, independently of any automaton.

    A dictionary is a finite set of words over runes, and a text is a word.  Every
    engine must report the occurrences of every dictionary word in the text, ordered
    by end offset and, at one end offset, longest keyword first.  `AllMatches` builds
    that list position by position; the lemmas below show that it holds exactly the
    occurrences, in strictly increasing scan order, and that these two facts
    determine it. */
module Matching {

  type Rune = int
  type Word = seq<Rune>

  /** A reported match; offsets are rune offsets of a half-open span. */
  datatype Match = Match(keyword: Word, start: int, end: int)

  lemma SomeRune(s: set<Rune>)
    ensures |s| > 0 ==> exists ch :: ch in s
  {
    if forall ch :: ch !in s { assert s == {}; }
  }

  // ----- the reference list -----

  /** The keywords that are non-empty suffixes of `w`, longest first. */
  function KeywordSuffixes(dict: set<Word>, w: Word): seq<Word> {
    if w == [] then []
    else if w in dict then [w] + KeywordSuffixes(dict, w[1..])
    else KeywordSuffixes(dict, w[1..])
  }

  /** The given keywords as matches that end at `end`. */
  function Spans(keywords: seq<Word>, end: nat): seq<Match> {
    if keywords == [] then [] else
    [Match(keywords[0], end - |keywords[0]|, end)] + Spans(keywords[1..], end)
  }

  lemma {:induction false} SpansAt(keywords: seq<Word>, end: nat)
    ensures var r := Spans(keywords, end);
            |r| == |keywords| &&
            forall i :: 0 <= i < |r| ==> r[i] == Match(keywords[i], end - |keywords[i]|, end)
  {
    if keywords != [] { SpansAt(keywords[1..], end); }
  }

  lemma SpansCons(k: Word, rest: seq<Word>, end: nat)
    ensures Spans([k] + rest, end) == [Match(k, end - |k|, end)] + Spans(rest, end)
  {
    assert ([k] + rest)[1..] == rest;
  }

  /** Every match ending at the last rune of `text`. */
  function MatchesAtEnd(dict: set<Word>, text: Word): seq<Match> {
    Spans(KeywordSuffixes(dict, text), |text|)
  }

  /** Every match in `text`, in scan order. */
  function AllMatches(dict: set<Word>, text: Word): seq<Match> {
    if text == [] then []
    else AllMatches(dict, text[..|text| - 1]) + MatchesAtEnd(dict, text)
  }

  // ----- what the list contains -----

  predicate IsOccurrence(dict: set<Word>, text: Word, m: Match) {
    0 <= m.start < m.end <= |text| && m.keyword in dict && text[m.start..m.end] == m.keyword
  }

  /** Some keyword occurs. */
  ghost predicate Occurring(dict: set<Word>, text: Word) { exists m :: IsOccurrence(dict, text, m) }

  /** Scan order: end ascending, then start ascending (longest first). */
  predicate Before(a: Match, b: Match) {
    a.end < b.end || (a.end == b.end && a.start < b.start)
  }

  ghost predicate Ordered(ms: seq<Match>) {
    forall i, j :: 0 <= i < j < |ms| ==> Before(ms[i], ms[j])
  }

  ghost predicate IsSuffix(s: Word, w: Word) {
    |s| <= |w| && s == w[|w| - |s|..]
  }

  lemma {:induction false} KeywordSuffixesExact(dict: set<Word>, w: Word, k: Word)
    ensures k in KeywordSuffixes(dict, w) <==> k != [] && k in dict && IsSuffix(k, w)
  {
    if w != [] {
      KeywordSuffixesExact(dict, w[1..], k);
      assert k in KeywordSuffixes(dict, w) <==> (k == w && w in dict) || k in KeywordSuffixes(dict, w[1..]);
      if |k| < |w| { assert w[1..][|w| - 1 - |k|..] == w[|w| - |k|..]; }
    }
  }

  lemma {:induction false} KeywordSuffixesDecreasing(dict: set<Word>, w: Word)
    ensures forall i, j :: 0 <= i < j < |KeywordSuffixes(dict, w)| ==>
              |KeywordSuffixes(dict, w)[i]| > |KeywordSuffixes(dict, w)[j]|
    ensures forall i :: 0 <= i < |KeywordSuffixes(dict, w)| ==>
              0 < |KeywordSuffixes(dict, w)[i]| <= |w|
  {
    if w != [] { KeywordSuffixesDecreasing(dict, w[1..]); }
  }

  lemma MatchesAtEndExact(dict: set<Word>, text: Word, m: Match)
    ensures m in MatchesAtEnd(dict, text) <==> IsOccurrence(dict, text, m) && m.end == |text|
  {
    var ks := KeywordSuffixes(dict, text);
    var ms := MatchesAtEnd(dict, text);
    SpansAt(ks, |text|);
    KeywordSuffixesExact(dict, text, m.keyword);
    if m in ms {
      var i :| 0 <= i < |ms| && ms[i] == m;
      assert ks[i] == m.keyword && m.keyword in ks;
      assert text[|text| - |m.keyword|..] == text[m.start..m.end];
    }
    if IsOccurrence(dict, text, m) && m.end == |text| {
      assert text[m.start..m.end] == text[|text| - |m.keyword|..];
      var i :| 0 <= i < |ks| && ks[i] == m.keyword;
      assert ms[i] == m;
    }
  }

  /** `AllMatches` holds exactly the occurrences of dictionary words. */
  lemma {:induction false} AllMatchesExact(dict: set<Word>, text: Word, m: Match)
    ensures m in AllMatches(dict, text) <==> IsOccurrence(dict, text, m)
  {
    if text != [] {
      var before := text[..|text| - 1];
      AllMatchesExact(dict, before, m);
      MatchesAtEndExact(dict, text, m);
      if 0 <= m.start < m.end <= |before| { assert before[m.start..m.end] == text[m.start..m.end]; }
    }
  }

  /** `AllMatches` is strictly increasing in scan order, so it repeats nothing. */
  lemma {:induction false} AllMatchesOrdered(dict: set<Word>, text: Word)
    ensures Ordered(AllMatches(dict, text))
  {
    if text != [] {
      var before := text[..|text| - 1];
      var first, last := AllMatches(dict, before), MatchesAtEnd(dict, text);
      AllMatchesOrdered(dict, before);
      KeywordSuffixesDecreasing(dict, text);
      SpansAt(KeywordSuffixes(dict, text), |text|);
      forall i, j | 0 <= i < j < |first + last| ensures Before((first + last)[i], (first + last)[j]) {
        if i < |first| <= j {
          AllMatchesExact(dict, before, first[i]);
          assert first[i] in first;
        }
      }
    }
  }

  lemma NonEmptyHasMember(ms: seq<Match>)
    ensures ms != [] ==> exists m :: m in ms
  {
    if ms != [] { assert ms[0] in ms; }
  }

  /** Strictly ordered lists with the same members are equal. */
  lemma {:induction false} OrderedUnique(a: seq<Match>, b: seq<Match>)
    requires Ordered(a) && Ordered(b)
    requires forall m :: m in a <==> m in b
    ensures a == b
  {
    NonEmptyHasMember(a);
    NonEmptyHasMember(b);
    if a != [] && b != [] {
      assert a[0] in b && b[0] in a;
      assert a[0] == b[0];
      forall m ensures m in a[1..] <==> m in b[1..] {
        if m in a[1..] { assert m in a && m != a[0]; }
        if m in b[1..] { assert m in b && m != b[0]; }
      }
      OrderedUnique(a[1..], b[1..]);
    }
  }

  /** Any strictly ordered list of exactly the occurrences is `AllMatches`. */
  lemma AllMatchesUnique(dict: set<Word>, text: Word, ms: seq<Match>)
    requires Ordered(ms)
    requires forall m :: m in ms <==> IsOccurrence(dict, text, m)
    ensures ms == AllMatches(dict, text)
  {
    AllMatchesOrdered(dict, text);
    forall m ensures m in ms <==> m in AllMatches(dict, text) { AllMatchesExact(dict, text, m); }
    OrderedUnique(ms, AllMatches(dict, text));
  }

  // ----- looking for any match -----

  lemma NoMatches(dict: set<Word>)
    ensures AllMatches(dict, []) == []
  {
  }

  lemma NoSuffixes(dict: set<Word>)
    ensures KeywordSuffixes(dict, []) == []
  {
  }

  lemma NoOccurrence(dict: set<Word>, text: Word)
    ensures AllMatches(dict, text) == [] ==> forall m :: !IsOccurrence(dict, text, m)
  {
    forall m ensures m in AllMatches(dict, text) <==> IsOccurrence(dict, text, m) { AllMatchesExact(dict, text, m); }
  }

  lemma OneMore(dict: set<Word>, text: Word, n: nat)
    requires 0 < n <= |text| && AllMatches(dict, text[..n - 1]) == []
    ensures AllMatches(dict, text[..n]) == MatchesAtEnd(dict, text[..n])
    ensures MatchesAtEnd(dict, text[..n]) == [] <==> KeywordSuffixes(dict, text[..n]) == []
    ensures KeywordSuffixes(dict, text[..n]) != [] ==> Occurring(dict, text)
  {
    var here := text[..n];
    assert here[..n - 1] == text[..n - 1];
    SpansAt(KeywordSuffixes(dict, here), n);
    if KeywordSuffixes(dict, here) != [] {
      var m := MatchesAtEnd(dict, here)[0];
      assert m in MatchesAtEnd(dict, here);
      MatchesAtEndExact(dict, here, m);
      assert here[m.start..m.end] == text[m.start..m.end];
      assert IsOccurrence(dict, text, m);
    }
  }

  // ----- callbacks -----

  /** A callback may ask to stop.  Its answer can depend on everything it has been
      given so far, so it is a predicate on that history; the matches delivered are
      the shortest prefix it rejects, or all of them. */
  function Delivered(all: seq<Match>, accept: seq<Match> -> bool): seq<Match> {
    DeliveredFrom([], all, accept)
  }

  function DeliveredFrom(sent: seq<Match>, rest: seq<Match>, accept: seq<Match> -> bool): seq<Match>
    decreases rest
  {
    if rest == [] then sent
    else if accept(sent + [rest[0]]) then DeliveredFrom(sent + [rest[0]], rest[1..], accept)
    else sent + [rest[0]]
  }

  lemma {:induction false} DeliveredExact(sent: seq<Match>, rest: seq<Match>, accept: seq<Match> -> bool)
    ensures var r := DeliveredFrom(sent, rest, accept);
            && sent <= r <= sent + rest
            && (forall n :: |sent| < n < |r| ==> accept(r[..n]))
            && (r != sent + rest ==> |sent| < |r| && !accept(r))
    decreases rest
  {
    if rest != [] && accept(sent + [rest[0]]) {
      DeliveredExact(sent + [rest[0]], rest[1..], accept);
      assert sent + rest == (sent + [rest[0]]) + rest[1..];
      assert DeliveredFrom(sent, rest, accept)[..|sent| + 1] == sent + [rest[0]];
    }
  }

  /** Whether the callback stopped before or at the end of `rest`. */
  predicate Stops(sent: seq<Match>, rest: seq<Match>, accept: seq<Match> -> bool)
    decreases rest
  {
    rest != [] && (!accept(sent + [rest[0]]) || Stops(sent + [rest[0]], rest[1..], accept))
  }

  lemma {:induction false} DeliveredSplit(sent: seq<Match>, a: seq<Match>, b: seq<Match>, accept: seq<Match> -> bool)
    ensures Stops(sent, a, accept) ==>
              DeliveredFrom(sent, a + b, accept) == DeliveredFrom(sent, a, accept) && Stops(sent, a + b, accept)
    ensures !Stops(sent, a, accept) ==>
              DeliveredFrom(sent, a, accept) == sent + a &&
              DeliveredFrom(sent, a + b, accept) == DeliveredFrom(sent + a, b, accept) &&
              (Stops(sent, a + b, accept) <==> Stops(sent + a, b, accept))
    decreases a
  {
    if a == [] {
      assert a + b == b && sent + a == sent;
    } else {
      assert (a + b)[1..] == a[1..] + b && (a + b)[0] == a[0];
      assert sent + a == sent + [a[0]] + a[1..];
      if accept(sent + [a[0]]) { DeliveredSplit(sent + [a[0]], a[1..], b, accept); }
    }
  }

  lemma DeliveredCons(sent: seq<Match>, m: Match, rest: seq<Match>, accept: seq<Match> -> bool)
    ensures DeliveredFrom(sent, [m] + rest, accept) ==
              if accept(sent + [m]) then DeliveredFrom(sent + [m], rest, accept) else sent + [m]
    ensures Stops(sent, [m] + rest, accept) <==>
              !accept(sent + [m]) || Stops(sent + [m], rest, accept)
  {
    assert ([m] + rest)[1..] == rest;
  }

  /** A callback that never stops is given everything. */
  lemma {:induction false} AcceptAll(sent: seq<Match>, rest: seq<Match>, accept: seq<Match> -> bool)
    requires forall ms :: accept(ms)
    ensures DeliveredFrom(sent, rest, accept) == sent + rest
    decreases rest
  {
    if rest != [] {
      AcceptAll(sent + [rest[0]], rest[1..], accept);
      assert sent + [rest[0]] + rest[1..] == sent + rest;
    }
  }
}
