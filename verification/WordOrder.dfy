/** The order of keywords, and strictly increasing keyword lists. */
module WordOrder {
  import opened Matching

  /** Three-way comparison of keywords, rune by rune. */
  function CompareWords(a: Word, b: Word): (c: int) {
    if a == [] then (if b == [] then 0 else -1)
    else if b == [] then 1
    else if a[0] != b[0] then (if a[0] < b[0] then -1 else 1)
    else CompareWords(a[1..], b[1..])
  }

  lemma {:induction false} CompareWordsTotal(a: Word, b: Word)
    ensures CompareWords(a, b) > 0 <==> CompareWords(b, a) < 0
    ensures CompareWords(a, b) == 0 <==> a == b
  {
    if a != [] && b != [] && a[0] == b[0] {
      CompareWordsTotal(a[1..], b[1..]);
      assert a == [a[0]] + a[1..] && b == [b[0]] + b[1..];
    }
  }

  lemma {:induction false} CompareWordsTransitive(a: Word, b: Word, c: Word)
    requires CompareWords(a, b) < 0 && CompareWords(b, c) < 0
    ensures CompareWords(a, c) < 0
  {
    if a != [] && a[0] == b[0] == c[0] { CompareWordsTransitive(a[1..], b[1..], c[1..]); }
  }

  /** It is lexicographic: the shorter word first, or the one with the smaller rune where
      they first differ. */
  lemma {:induction false} CompareWordsLexicographic(a: Word, b: Word, n: nat)
    requires n <= |a| && n <= |b| && a[..n] == b[..n]
    ensures n == |a| < |b| || (n < |a| && n < |b| && a[n] < b[n]) ==> CompareWords(a, b) < 0
    decreases n
  {
    if n > 0 {
      assert a[..n][0] == b[..n][0] && a[1..][..n - 1] == a[..n][1..] && b[1..][..n - 1] == b[..n][1..];
      CompareWordsLexicographic(a[1..], b[1..], n - 1);
    }
  }

  /** A set of keywords as a list: strictly increasing. */
  ghost predicate Rising(s: seq<Word>) {
    forall i {:trigger RisesAt(s, i)} :: 0 < i < |s| ==> RisesAt(s, i)
  }

  ghost predicate RisesAt(s: seq<Word>, i: int)
    requires 0 < i < |s|
  {
    CompareWords(s[i - 1], s[i]) < 0
  }

  lemma {:induction false} RisingPairs(s: seq<Word>, i: nat, j: nat)
    requires Rising(s) && i < j < |s|
    ensures CompareWords(s[i], s[j]) < 0 && s[i] != s[j]
    decreases j - i
  {
    assert RisesAt(s, j);
    if i < j - 1 {
      RisingPairs(s, i, j - 1);
      CompareWordsTransitive(s[i], s[j - 1], s[j]);
    }
    CompareWordsTotal(s[i], s[j]);
  }

  lemma {:induction false} RisingSize(s: seq<Word>)
    requires Rising(s)
    ensures |set w | w in s| == |s|
  {
    if s != [] {
      var n := |s| - 1;
      forall i | 0 < i < n ensures RisesAt(s[..n], i) { assert RisesAt(s, i); }
      RisingSize(s[..n]);
      assert s == s[..n] + [s[n]];
      forall i | 0 <= i < n ensures s[i] != s[n] { RisingPairs(s, i, n); }
      assert (set w | w in s) == (set w | w in s[..n]) + {s[n]};
    }
  }

  /** Adds one keyword at its place. */
  method InsertWord(s: seq<Word>, w: Word) returns (r: seq<Word>)
    requires Rising(s) && w !in s
    ensures Rising(r) && forall x :: x in r <==> x in s || x == w
  {
    hide Rising, CompareWords;
    var i := |s|;
    while i > 0 && CompareWords(s[i - 1], w) > 0
      invariant 0 <= i <= |s| && (i < |s| ==> CompareWords(w, s[i]) < 0)
    {
      CompareWordsTotal(s[i - 1], w);
      i := i - 1;
    }
    if i > 0 { CompareWordsTotal(s[i - 1], w); }
    InsertedWord(s, w, i);
    r := s[..i] + [w] + s[i..];
    forall x ensures x in r <==> x in s || x == w { assert s == s[..i] + s[i..]; }
  }

  lemma InsertedWord(s: seq<Word>, w: Word, i: nat)
    requires Rising(s) && i <= |s| && (i < |s| ==> CompareWords(w, s[i]) < 0) && (i > 0 ==> CompareWords(s[i - 1], w) < 0)
    ensures Rising(s[..i] + [w] + s[i..])
  {
    hide CompareWords;
    var r := s[..i] + [w] + s[i..];
    forall j | 0 < j < |r| ensures RisesAt(r, j) {
      if j < i { assert RisesAt(s, j); }
      if j > i + 1 { assert RisesAt(s, j - 1); }
    }
  }

  /** The members of a set in order, as collecting and sorting gives them. */
  method SortWords(words: set<Word>) returns (r: seq<Word>)
    ensures Rising(r) && forall x :: x in r <==> x in words
  {
    r := [];
    var todo := words;
    while todo != {}
      invariant todo <= words && Rising(r) && forall x :: x in r <==> x in words && x !in todo
      decreases |todo|
    {
      var w :| w in todo;
      r := InsertWord(r, w);
      todo := todo - {w};
    }
  }

  lemma RisingTail(s: seq<Word>)
    requires Rising(s) && s != []
    ensures Rising(s[1..]) && forall w :: w in s[1..] <==> w in s && w != s[0]
    ensures forall w :: w in s[1..] ==> CompareWords(s[0], w) < 0
  {
    var t := s[1..];
    forall i | 0 < i < |t| ensures RisesAt(t, i) { assert RisesAt(s, i + 1); }
    assert s == [s[0]] + t;
    forall w | w in t ensures CompareWords(s[0], w) < 0 && w != s[0] {
      var i :| 0 <= i < |t| && t[i] == w;
      RisingPairs(s, 0, i + 1);
    }
  }

  /** A set has one increasing list. */
  lemma {:induction false} RisingUnique(a: seq<Word>, b: seq<Word>)
    requires Rising(a) && Rising(b) && forall w :: w in a <==> w in b
    ensures a == b
  {
    if a != [] { assert a[0] in a; }
    if b != [] { assert b[0] in b; }
    if a != [] && b != [] {
      RisingTail(a);
      RisingTail(b);
      CompareWordsTotal(a[0], b[0]);
      RisingUnique(a[1..], b[1..]);
    }
  }
}
