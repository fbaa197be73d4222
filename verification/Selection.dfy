/** Leftmost-longest selection over a finished list of matches (pkg/acor/matches.go):
    whole-word filtering, then sort and greedy pass. */
module Selection {
  import opened Matching

  // ----- filtering -----

  /** The match is bounded by non-word runes or the edges of the text. */
  predicate WholeWord(runes: Word, isWord: Rune -> bool, m: Match) {
    && (m.start <= 0 || m.start > |runes| || !isWord(runes[m.start - 1]))
    && (m.end >= |runes| || m.end < 0 || !isWord(runes[m.end]))
  }

  function Kept(ms: seq<Match>, keep: Match -> bool): seq<Match> {
    if ms == [] then []
    else Kept(ms[..|ms| - 1], keep) + if keep(ms[|ms| - 1]) then [ms[|ms| - 1]] else []
  }

  lemma KeptSnoc(ms: seq<Match>, m: Match, keep: Match -> bool)
    ensures Kept(ms + [m], keep) == Kept(ms, keep) + if keep(m) then [m] else []
  {
    assert (ms + [m])[..|ms|] == ms;
  }

  lemma {:induction false} KeptSplit(a: seq<Match>, b: seq<Match>, keep: Match -> bool)
    ensures Kept(a + b, keep) == Kept(a, keep) + Kept(b, keep)
    decreases |b|
  {
    if b == [] {
      assert a + b == a;
    } else {
      assert (a + b)[..|a + b| - 1] == a + b[..|b| - 1];
      KeptSplit(a, b[..|b| - 1], keep);
    }
  }

  lemma {:induction false} KeptMembers(ms: seq<Match>, keep: Match -> bool, m: Match)
    ensures m in Kept(ms, keep) <==> m in ms && keep(m)
  {
    if ms != [] {
      KeptMembers(ms[..|ms| - 1], keep, m);
      assert ms == ms[..|ms| - 1] + [ms[|ms| - 1]];
    }
  }

  method FilterWholeWord(ms: seq<Match>, runes: Word, isWord: Rune -> bool) returns (out: seq<Match>)
    requires forall m :: m in ms ==> 0 <= m.start < m.end <= |runes|
    ensures out == Kept(ms, m => WholeWord(runes, isWord, m))
    ensures forall m :: m in out <==>
              && m in ms && (m.start == 0 || !isWord(runes[m.start - 1])) && (m.end == |runes| || !isWord(runes[m.end]))
    ensures Ordered(ms) ==> Ordered(out)
  {
    var keep := m => WholeWord(runes, isWord, m);
    out := [];
    for i := 0 to |ms|
      invariant out == Kept(ms[..i], keep)
    {
      assert ms[..i + 1] == ms[..i] + [ms[i]];
      KeptSnoc(ms[..i], ms[i], keep);
      var m := ms[i];
      var beforeOk := m.start == 0 || !isWord(runes[m.start - 1]);
      var afterOk := m.end >= |runes| || !isWord(runes[m.end]);
      if beforeOk && afterOk { out := out + [m]; }
    }
    assert ms[..|ms|] == ms;
    forall m ensures m in out <==> m in ms && WholeWord(runes, isWord, m) { KeptMembers(ms, keep, m); }
    KeptOrdered(ms, keep);
  }

  /** What is kept stays in order. */
  lemma {:induction false} KeptOrdered(ms: seq<Match>, keep: Match -> bool)
    ensures Ordered(ms) ==> Ordered(Kept(ms, keep))
  {
    if ms != [] && Ordered(ms) {
      var n := |ms| - 1;
      KeptOrdered(ms[..n], keep);
      var front := Kept(ms[..n], keep);
      assert forall i :: 0 <= i < n ==> ms[..n][i] == ms[i];
      forall i | 0 <= i < |front| ensures Before(front[i], ms[n]) {
        KeptMembers(ms[..n], keep, front[i]);
        var x :| 0 <= x < n && ms[..n][x] == front[i];
      }
    }
  }

  // ----- what leftmost-longest means -----

  /** The longest match that starts at `p`, if any. */
  function BestAt(ms: seq<Match>, p: int): seq<Match> {
    if ms == [] then []
    else
      var last, best := ms[|ms| - 1], BestAt(ms[..|ms| - 1], p);
      if last.start == p && (best == [] || last.end > best[0].end) then [last] else best
  }

  lemma {:induction false} BestAtExact(ms: seq<Match>, p: int)
    ensures |BestAt(ms, p)| <= 1
    ensures BestAt(ms, p) == [] <==> forall m :: m in ms ==> m.start != p
    ensures BestAt(ms, p) != [] ==>
              var b := BestAt(ms, p)[0];
              b in ms && b.start == p && forall m :: m in ms && m.start == p ==> m.end <= b.end
  {
    if ms != [] {
      BestAtExact(ms[..|ms| - 1], p);
      assert ms == ms[..|ms| - 1] + [ms[|ms| - 1]];
    }
  }

  lemma BestAtSnoc(ms: seq<Match>, m: Match, p: int)
    ensures BestAt(ms + [m], p) ==
              if m.start == p && (BestAt(ms, p) == [] || m.end > BestAt(ms, p)[0].end) then [m] else BestAt(ms, p)
  {
    assert (ms + [m])[..|ms|] == ms;
  }

  /** Later matches that start elsewhere change nothing. */
  lemma {:induction false} BestAtSplit(a: seq<Match>, b: seq<Match>, p: int)
    requires forall m :: m in b ==> m.start != p
    ensures BestAt(a + b, p) == BestAt(a, p)
    decreases |b|
  {
    if b == [] {
      assert a + b == a;
    } else {
      var n := |b| - 1;
      assert a + b == (a + b[..n]) + [b[n]];
      BestAtSnoc(a + b[..n], b[n], p);
      assert b[n] in b;
      BestAtSplit(a, b[..n], p);
    }
  }

  /** Leftmost-longest selection by definition: from `p` on, take the longest match at
      the first position that has one, and go on after its end. */
  function Greedy(ms: seq<Match>, p: int, n: int): seq<Match>
    decreases n - p
  {
    if p >= n then []
    else if BestAt(ms, p) == [] then Greedy(ms, p + 1, n)
    else
      var m := BestAt(ms, p)[0];
      [m] + if m.end > p then Greedy(ms, m.end, n) else Greedy(ms, p + 1, n)
  }

  lemma {:induction false} GreedySkips(ms: seq<Match>, p: int, q: int, n: int)
    requires p <= q <= n && forall i :: p <= i < q ==> BestAt(ms, i) == []
    ensures Greedy(ms, p, n) == Greedy(ms, q, n)
    decreases q - p
  {
    if p < q { GreedySkips(ms, p + 1, q, n); }
  }

  /** Every match lies in the text, and its span determines it. */
  ghost predicate SpansOk(ms: seq<Match>, n: int) {
    && (forall m :: m in ms ==> 0 <= m.start < m.end <= n)
    && (forall a, b :: a in ms && b in ms && a.start == b.start && a.end == b.end ==> a == b)
  }

  /** The selection is made of given matches, in increasing order without overlap, and
      every given match it leaves out overlaps a selected one that starts no later and,
      at the same start, is at least as long. */
  ghost predicate Dominated(sel: seq<Match>, m: Match) {
    exists i {:trigger sel[i]} :: 0 <= i < |sel| && (sel[i].start < m.start < sel[i].end || (sel[i].start == m.start && m.end <= sel[i].end))
  }

  ghost predicate Disjoint(sel: seq<Match>, p: int) {
    && (forall i :: 0 <= i < |sel| ==> p <= sel[i].start)
    && (forall i, j :: 0 <= i < j < |sel| ==> sel[i].end <= sel[j].start)
  }

  lemma DisjointCons(m: Match, rest: seq<Match>, p: int)
    requires Disjoint(rest, m.end) && p <= m.start < m.end
    ensures Disjoint([m] + rest, p)
  {
    var sel := [m] + rest;
    forall i, j | 0 <= i < j < |sel| ensures sel[i].end <= sel[j].start {
      assert sel[j] == rest[j - 1];
      if i > 0 { assert sel[i] == rest[i - 1]; }
    }
  }

  lemma DominatedCons(m: Match, rest: seq<Match>, x: Match)
    ensures Dominated(rest, x) ==> Dominated([m] + rest, x)
  {
    if Dominated(rest, x) {
      var i :| 0 <= i < |rest| && (rest[i].start < x.start < rest[i].end || (rest[i].start == x.start && x.end <= rest[i].end));
      assert ([m] + rest)[i + 1] == rest[i];
    }
  }

  lemma {:induction false} GreedyMeaning(ms: seq<Match>, p: int, n: int)
    requires SpansOk(ms, n)
    ensures var sel := Greedy(ms, p, n);
            Disjoint(sel, p) && (forall m :: m in sel ==> m in ms) && (forall m :: m in ms && p <= m.start ==> Dominated(sel, m))
    decreases n - p
  {
    hide BestAt, Disjoint, Dominated;
    if p < n {
      BestAtExact(ms, p);
      if BestAt(ms, p) == [] {
        GreedyMeaning(ms, p + 1, n);
        Weaken(Greedy(ms, p, n), p);
      } else {
        var m := BestAt(ms, p)[0];
        var rest := Greedy(ms, m.end, n);
        GreedyMeaning(ms, m.end, n);
        DisjointCons(m, rest, p);
        forall x | x in ms && p <= x.start ensures Dominated([m] + rest, x) {
          DominatedCons(m, rest, x);
          DominatedFirst(m, rest, x);
        }
      }
    } else {
      NothingSelected(p);
    }
  }

  /** Nothing else has this meaning. */
  lemma {:induction false} SelectionUnique(ms: seq<Match>, a: seq<Match>, b: seq<Match>, p: int, n: int)
    requires SpansOk(ms, n) && Selects(ms, a, p) && Selects(ms, b, p)
    ensures a == b
    decreases |a|
  {
    if a != [] { FirstNotLater(ms, a, b, p, n); }
    if b != [] { FirstNotLater(ms, b, a, p, n); }
    if a != [] && b != [] {
      assert a[0] in a && b[0] in b;
      SelectsTail(ms, a, p, n);
      SelectsTail(ms, b, p, n);
      SelectionUnique(ms, a[1..], b[1..], a[0].end, n);
    }
  }

  ghost predicate Selects(ms: seq<Match>, sel: seq<Match>, p: int) {
    Disjoint(sel, p) && (forall m :: m in sel ==> m in ms) && (forall m :: m in ms && p <= m.start ==> Dominated(sel, m))
  }

  lemma FirstNotLater(ms: seq<Match>, a: seq<Match>, b: seq<Match>, p: int, n: int)
    requires SpansOk(ms, n) && Selects(ms, a, p) && Selects(ms, b, p) && a != []
    ensures b != [] && (b[0].start < a[0].start || (b[0].start == a[0].start && a[0].end <= b[0].end))
  {
    assert a[0] in a;
    assert Dominated(b, a[0]);
    var i :| 0 <= i < |b| && (b[i].start < a[0].start < b[i].end || (b[i].start == a[0].start && a[0].end <= b[i].end));
    assert b[0] in b && b[i] in b;
    if i > 0 { assert b[0].end <= b[i].start; }
  }

  lemma SelectsTail(ms: seq<Match>, a: seq<Match>, p: int, n: int)
    requires SpansOk(ms, n) && Selects(ms, a, p) && a != []
    ensures Selects(ms, a[1..], a[0].end)
  {
    hide Disjoint, Dominated;
    assert a[0] in a;
    DisjointTail(a, p);
    forall m | m in ms && a[0].end <= m.start ensures Dominated(a[1..], m) { DominatedTail(a, m); }
  }

  lemma DisjointTail(a: seq<Match>, p: int)
    requires Disjoint(a, p) && a != []
    ensures p <= a[0].start && Disjoint(a[1..], a[0].end)
  {
  }

  lemma DominatedTail(a: seq<Match>, m: Match)
    requires a != [] && Dominated(a, m) && a[0].start < a[0].end <= m.start
    ensures Dominated(a[1..], m)
  {
    var i :| 0 <= i < |a| && (a[i].start < m.start < a[i].end || (a[i].start == m.start && m.end <= a[i].end));
    assert a[i] == a[1..][i - 1];
  }

  lemma Weaken(sel: seq<Match>, p: int)
    ensures Disjoint(sel, p + 1) ==> Disjoint(sel, p)
  {
  }

  lemma NothingSelected(p: int)
    ensures Disjoint([], p)
  {
  }

  lemma DominatedFirst(m: Match, rest: seq<Match>, x: Match)
    ensures m.start < x.start < m.end || (m.start == x.start && x.end <= m.end) ==> Dominated([m] + rest, x)
  {
    assert ([m] + rest)[0] == m;
  }

  // ----- sort, then one greedy pass in place -----

  /** Start ascending, then end descending. */
  function CompareStart(a: Match, b: Match): int {
    if a.start != b.start then (if a.start < b.start then -1 else 1)
    else if a.end != b.end then (if a.end > b.end then -1 else 1)
    else 0
  }

  ghost predicate ByStart(ms: seq<Match>) {
    forall i, j :: 0 <= i < j < |ms| ==> CompareStart(ms[i], ms[j]) <= 0
  }

  /** Any sort gives this. */
  method SortByStart(ms: seq<Match>) returns (r: seq<Match>)
    ensures ByStart(r) && multiset(r) == multiset(ms)
  {
    r := [];
    for n := 0 to |ms|
      invariant ByStart(r) && multiset(r) == multiset(ms[..n])
    {
      assert ms[..n + 1] == ms[..n] + [ms[n]];
      r := Insert(r, ms[n]);
    }
    assert ms[..|ms|] == ms;
  }

  method Insert(ms: seq<Match>, m: Match) returns (r: seq<Match>)
    requires ByStart(ms)
    ensures ByStart(r) && multiset(r) == multiset(ms) + multiset{m}
  {
    hide ByStart;
    var i := |ms|;
    while i > 0 && CompareStart(ms[i - 1], m) > 0
      invariant 0 <= i <= |ms| && (i < |ms| ==> CompareStart(m, ms[i]) <= 0)
    {
      i := i - 1;
    }
    Inserted(ms, m, i);
    assert ms == ms[..i] + ms[i..];
    r := ms[..i] + [m] + ms[i..];
  }

  lemma Inserted(r: seq<Match>, m: Match, i: nat)
    requires ByStart(r) && i <= |r| && (i > 0 ==> CompareStart(r[i - 1], m) <= 0)
    requires i < |r| ==> CompareStart(m, r[i]) <= 0
    ensures ByStart(r[..i] + [m] + r[i..])
  {
    var s := r[..i] + [m] + r[i..];
    forall j, k | 0 <= j < k < |s| ensures CompareStart(s[j], s[k]) <= 0 {
      if j < i {
        assert s[j] == r[j];
        if k == i && j < i - 1 { assert CompareStart(r[j], r[i - 1]) <= 0; }
        if k > i { assert s[k] == r[k - 1]; }
      } else {
        assert s[k] == r[k - 1];
        if j > i { assert s[j] == r[j - 1]; } else if k > i + 1 { assert CompareStart(r[i], r[k - 1]) <= 0; }
      }
    }
  }

  /** One pass over sorted matches that keeps those past the last kept end. */
  function Pick(sorted: seq<Match>, lastEnd: int): seq<Match> {
    if sorted == [] then []
    else if sorted[0].start >= lastEnd then [sorted[0]] + Pick(sorted[1..], sorted[0].end)
    else Pick(sorted[1..], lastEnd)
  }

  /** The pass over sorted matches is the leftmost-longest selection. */
  lemma {:induction false} PickIsGreedy(ms: seq<Match>, t: seq<Match>, e: int, n: int)
    requires SpansOk(ms, n) && ByStart(t) && 0 <= e <= n
    requires (forall m :: m in t ==> m in ms) && (forall m :: m in ms && m.start >= e ==> m in t)
    ensures Pick(t, e) == Greedy(ms, e, n)
    decreases |t|
  {
    hide BestAt, ByStart, Greedy;
    if t == [] {
      forall i | e <= i < n ensures BestAt(ms, i) == [] { BestAtExact(ms, i); }
      GreedySkips(ms, e, n, n);
      GreedyAt(ms, n, n);
    } else {
      var m := t[0];
      assert t == [m] + t[1..] && m in t;
      SortedTail(t);
      if m.start < e {
        PickIsGreedy(ms, t[1..], e, n);
      } else {
        PickIsGreedy(ms, t[1..], m.end, n);
        forall i | e <= i < m.start ensures BestAt(ms, i) == [] { BestAtExact(ms, i); }
        GreedySkips(ms, e, m.start, n);
        BestAtExact(ms, m.start);
        GreedyAt(ms, m.start, n);
      }
    }
  }

  lemma SortedTail(t: seq<Match>)
    requires ByStart(t) && t != []
    ensures ByStart(t[1..]) && forall x :: x in t ==> t[0].start < x.start || (t[0].start == x.start && x.end <= t[0].end)
  {
  }

  lemma GreedyAt(ms: seq<Match>, p: int, n: int)
    ensures p >= n ==> Greedy(ms, p, n) == []
    ensures p < n && BestAt(ms, p) != [] && BestAt(ms, p)[0].end > p ==>
              Greedy(ms, p, n) == [BestAt(ms, p)[0]] + Greedy(ms, BestAt(ms, p)[0].end, n)
  {
  }

  /** Sorts the slice and compacts the selection to its front. */
  method LeftmostLongest(a: array<Match>, ghost n: int) returns (kept: nat)
    requires SpansOk(a[..], n) && 0 <= n
    modifies a
    ensures kept <= a.Length && a[..kept] == Greedy(old(a[..]), 0, n)
  {
    ghost var ms := a[..];
    var sorted := SortByStart(a[..]);
    MultisetMembers(sorted, ms);
    PickIsGreedy(ms, sorted, 0, n);
    Overwrite(a, sorted);
    kept := Compact(a);
  }

  lemma MultisetMembers(a: seq<Match>, b: seq<Match>)
    requires multiset(a) == multiset(b)
    ensures |a| == |b| && forall m :: m in a <==> m in b
  {
    assert |multiset(a)| == |a| && |multiset(b)| == |b|;
    forall m ensures m in a <==> m in b { assert m in multiset(a) <==> m in multiset(b); }
  }

  method Overwrite(a: array<Match>, s: seq<Match>)
    requires |s| == a.Length
    modifies a
    ensures a[..] == s
  {
    for i := 0 to |s|
      invariant a[..i] == s[..i]
    {
      a[i] := s[i];
    }
  }

  /** The write cursor never passes the read cursor. */
  method Compact(a: array<Match>) returns (kept: nat)
    modifies a
    ensures kept <= a.Length && a[..kept] == Pick(old(a[..]), 0)
  {
    ghost var was := a[..];
    kept := 0;
    var lastEnd := 0;
    var i := 0;
    assert was[0..] == was;
    while i < a.Length
      invariant kept <= i <= a.Length && (forall j :: i <= j < a.Length ==> a[j] == was[j])
      invariant a[..kept] + Pick(was[i..], lastEnd) == Pick(was, 0)
    {
      var m := a[i];
      assert was[i..][0] == m && was[i..][1..] == was[i + 1..];
      if m.start >= lastEnd {
        ghost var before := a[..kept];
        a[kept] := m;
        assert a[..kept + 1] == before + [m];
        kept, lastEnd := kept + 1, m.end;
      }
      i := i + 1;
    }
    assert was[i..] == [];
  }
}
