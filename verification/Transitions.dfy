/** Packed transition entries and rows of them, shared by the full and the banded
    DFA (internal/engine/engine_output.go). */
module Transitions {
  import opened Matching
  import opened Automaton

  /** Bit 30 of a transition entry says that the target carries keywords.  States fit
      below it, so or-ing it in is addition and masking it out is a remainder. */
  const HAS_OUTPUT_BIT := 0x4000_0000

  /** Packs a state with its output flag; the code panics on a state that does not fit. */
  function PackState(state: int, hasOutput: bool): (entry: int)
    requires 0 <= state < HAS_OUTPUT_BIT
    ensures 0 <= entry && Target(entry) == state && (HasOutput(entry) <==> hasOutput)
  {
    if hasOutput then state + HAS_OUTPUT_BIT else state
  }

  function Target(entry: int): int { entry % HAS_OUTPUT_BIT }
  predicate HasOutput(entry: int) { entry >= HAS_OUTPUT_BIT }

  /** A table entry is the NFA's next state, with a flag that is true exactly when
      that state's output chain holds a keyword. */
  ghost predicate EntryOk(dict: set<Word>, path: map<int, Word>, s: int, r: Rune, entry: int)
    requires s in path
  {
    && 0 <= entry && Target(entry) in path && path[Target(entry)] == Landing(dict, path[s] + [r])
    && (HasOutput(entry) <==> KeywordSuffixes(dict, path[Target(entry)]) != [])
  }

  /** Row `s` of a table with rows of one entry per alphabet rune. */
  ghost predicate RowOk(dict: set<Word>, path: map<int, Word>, alphabet: seq<Rune>, table: seq<int>, s: int, off: int)
  {
    && s in path && 0 <= off && off + |alphabet| <= |table|
    && forall ai {:trigger alphabet[ai]} :: 0 <= ai < |alphabet| ==> EntryOk(dict, path, s, alphabet[ai], table[off + ai])
  }

  /** A filled row survives writes to another row. */
  lemma RowKept(dict: set<Word>, path: map<int, Word>, alphabet: seq<Rune>, before: seq<int>, after: seq<int>,
                s: int, off: int, lo: int)
    requires RowOk(dict, path, alphabet, before, s, off) && |before| == |after|
    requires off + |alphabet| <= lo || lo + |alphabet| <= off
    requires forall j :: 0 <= j < |before| && (j < lo || j >= lo + |alphabet|) ==> after[j] == before[j]
    ensures RowOk(dict, path, alphabet, after, s, off)
  {
    forall ai | 0 <= ai < |alphabet| ensures EntryOk(dict, path, s, alphabet[ai], after[off + ai]) {
      assert EntryOk(dict, path, s, alphabet[ai], before[off + ai]);
    }
  }
}
