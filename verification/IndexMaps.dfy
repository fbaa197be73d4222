/** What FindIndex returns: for every keyword that occurs, its start offsets in
    increasing order. */
module IndexMaps {
  import opened Matching
  import opened OutputTables

  ghost predicate Occurs(dict: set<Word>, text: Word, k: Word, start: int) {
    IsOccurrence(dict, text, Match(k, start, start + |k|))
  }

  ghost predicate Increasing(ss: seq<int>) {
    forall i, j :: 0 <= i < j < |ss| ==> ss[i] < ss[j]
  }

  /** The index map of a text, stated by its contents. */
  ghost predicate IsIndex(dict: set<Word>, text: Word, index: map<Word, seq<int>>) {
    && (forall k, s :: Occurs(dict, text, k, s) ==> k in index)
    && (forall k :: k in index ==> Lists(dict, text, k, index[k]) && index[k] != [])
  }

  ghost predicate Lists(dict: set<Word>, text: Word, k: Word, ss: seq<int>) {
    Increasing(ss) && forall s {:trigger Occurs(dict, text, k, s)} {:trigger s in ss} :: s in ss <==> Occurs(dict, text, k, s)
  }

  lemma {:induction false} IncreasingUnique(a: seq<int>, b: seq<int>)
    requires Increasing(a) && Increasing(b) && forall s :: s in a <==> s in b
    ensures a == b
  {
    HasMember(a);
    HasMember(b);
    if a != [] && b != [] {
      assert a[0] in b && b[0] in a;
      assert a[0] == b[0];
      forall s ensures s in a[1..] <==> s in b[1..] {
        if s in a[1..] { assert s in a && s != a[0]; }
        if s in b[1..] { assert s in b && s != b[0]; }
      }
      IncreasingUnique(a[1..], b[1..]);
    }
  }

  lemma HasMember(a: seq<int>)
    ensures a != [] ==> exists s :: s in a
  {
    if a != [] {
      var s := a[0];
      assert s in a;
    }
  }

  /** A text has one index map. */
  lemma IndexUnique(dict: set<Word>, text: Word, a: map<Word, seq<int>>, b: map<Word, seq<int>>)
    requires IsIndex(dict, text, a) && IsIndex(dict, text, b)
    ensures a == b
  {
    forall k | k in a || k in b ensures k in a && k in b && a[k] == b[k] {
      if k in a { assert a[k][0] in a[k]; assert Occurs(dict, text, k, a[k][0]); }
      if k in b { assert b[k][0] in b[k]; assert Occurs(dict, text, k, b[k][0]); }
      forall s ensures s in a[k] <==> s in b[k] { assert s in a[k] <==> Occurs(dict, text, k, s); }
      IncreasingUnique(a[k], b[k]);
    }
    assert a.Keys == b.Keys;
  }

  // ----- folding matches into a map -----

  function Starts(ms: seq<Match>, k: Word): seq<int> {
    if ms == [] then []
    else
      var n := |ms| - 1;
      if ms[n].keyword == k then Starts(ms[..n], k) + [ms[n].start] else Starts(ms[..n], k)
  }

  lemma {:induction false} IndexAllStarts(ms: seq<Match>, k: Word)
    ensures var r := IndexAll(map[], ms);
            (k in r <==> Starts(ms, k) != []) && (k in r ==> r[k] == Starts(ms, k))
  {
    if ms != [] {
      var n := |ms| - 1;
      assert ms == ms[..n] + [ms[n]];
      IndexAllSplit(map[], ms[..n], [ms[n]]);
      IndexAllStarts(ms[..n], k);
      var before := IndexAll(map[], ms[..n]);
      assert [ms[n]][1..] == [];
      assert IndexAll(before, [ms[n]]) == IndexOne(before, ms[n]);
    }
  }

  lemma {:induction false} StartsMembers(ms: seq<Match>, k: Word, s: int)
    ensures s in Starts(ms, k) <==> exists m :: m in ms && m.keyword == k && m.start == s
  {
    if ms != [] {
      var n := |ms| - 1;
      assert ms == ms[..n] + [ms[n]];
      StartsMembers(ms[..n], k, s);
      assert forall m :: m in ms <==> m in ms[..n] || m == ms[n];
    }
  }

  lemma {:induction false} StartsIncreasing(ms: seq<Match>, k: Word)
    requires Ordered(ms) && forall m :: m in ms && m.keyword == k ==> m.end == m.start + |k|
    ensures Increasing(Starts(ms, k))
  {
    if ms != [] {
      var n := |ms| - 1;
      assert ms == ms[..n] + [ms[n]];
      assert forall m :: m in ms[..n] ==> m in ms;
      StartsIncreasing(ms[..n], k);
      if ms[n].keyword == k {
        var front := Starts(ms[..n], k);
        forall i | 0 <= i < |front| ensures front[i] < ms[n].start {
          var s := front[i];
          assert s in front;
          StartsMembers(ms[..n], k, s);
          var m :| m in ms[..n] && m.keyword == k && m.start == s;
          assert Before(m, ms[n]) && m in ms && ms[n] in ms;
        }
      }
    }
  }

  /** The starts of a keyword in the reference list are where it occurs. */
  lemma StartsOccur(dict: set<Word>, text: Word, k: Word, s: int)
    ensures s in Starts(AllMatches(dict, text), k) <==> Occurs(dict, text, k, s)
  {
    hide AllMatches, Starts, IsOccurrence;
    var ms := AllMatches(dict, text);
    StartsMembers(ms, k, s);
    AllMatchesExact(dict, text, Match(k, s, s + |k|));
    if s in Starts(ms, k) {
      var m :| m in ms && m.keyword == k && m.start == s;
      SpanOf(dict, text, m);
    }
  }

  lemma SpanOf(dict: set<Word>, text: Word, m: Match)
    ensures m in AllMatches(dict, text) ==> m == Match(m.keyword, m.start, m.start + |m.keyword|)
  {
    AllMatchesExact(dict, text, m);
  }

  /** FindIndex's fold over the reference matches is the index map of the text. */
  lemma IndexOfMatches(dict: set<Word>, text: Word)
    ensures IsIndex(dict, text, IndexAll(map[], AllMatches(dict, text)))
  {
    hide AllMatches, Starts, Occurs, IndexAll, Increasing, Ordered;
    var ms := AllMatches(dict, text);
    var r := IndexAll(map[], ms);
    AllMatchesOrdered(dict, text);
    forall k, s | Occurs(dict, text, k, s) ensures k in r {
      IndexAllStarts(ms, k);
      StartsOccur(dict, text, k, s);
    }
    forall k | k in r ensures Lists(dict, text, k, r[k]) && r[k] != [] {
      IndexAllStarts(ms, k);
      forall m | m in ms && m.keyword == k ensures m.end == m.start + |k| { SpanOf(dict, text, m); }
      StartsIncreasing(ms, k);
      forall s ensures s in r[k] <==> Occurs(dict, text, k, s) { StartsOccur(dict, text, k, s); }
    }
  }
}
