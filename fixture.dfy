/**
 * The three-state automaton over {a, b} used by the repository's unit test:
 * 0 -a,b-> 1, 1 -a-> 1, 1 -b-> 2, 2 -a-> 0, 2 -b-> 2, initial 0, final {1, 2}.
 */
module AutomatonFixture {
  import opened Wrappers
  import opened FiniteAutomata

  /** The unit test's automaton. */
  predicate IsFixture(fa: FiniteAutomaton<int, char>)
  {
    && fa.transitions ==
         map[0 := map['a' := 1, 'b' := 1], 1 := map['a' := 1, 'b' := 2], 2 := map['a' := 0, 'b' := 2]]
    && fa.initialState == 0
    && fa.finalStates == [1, 2]
  }

  method NewFixture() returns (fa: FiniteAutomaton<int, char>)
    ensures IsFixture(fa)
    ensures fa.states == [0, 1, 2] && fa.alphabet == ['a', 'b']
  {
    fa := new FiniteAutomaton([0, 1, 2], ['a', 'b'],
      map[0 := map['a' := 1, 'b' := 1], 1 := map['a' := 1, 'b' := 2], 2 := map['a' := 0, 'b' := 2]],
      0, [1, 2]);
  }

  /**
   * The unit test's cases that agree with the engine: "abbbba" ends in 0,
   * "-" has no move from 0, "abba" ends in 0; the other four end in 1 or 2.
   */
  lemma AgreeingVerdicts(fa: FiniteAutomaton<int, char>)
    requires IsFixture(fa)
    ensures !fa.Accepted("abbbba") && fa.Accepted("aabbbb") && fa.Accepted("bbabbabbabbb")
    ensures fa.Accepted("bbbbbbbbb") && !fa.Accepted("-") && fa.Accepted("bbbbaabbbb")
    ensures !fa.Accepted("abba")
  {
    assert fa.Run(2, "ba") == Some(0);
    assert fa.Run(1, "abba") == Some(0);
    assert fa.Run(0, "bbabba") == Some(0);
    fa.RunComposition(0, "bbabba", "bbabbb");
    assert "bbabba" + "bbabbb" == "bbabbabbabbb";
    assert fa.Run(0, "bbabbb") == Some(2);
  }

  /** The verdicts of the unit test's cases that agree with the engine, in the test's order. */
  method AgreeingCases() returns (verdicts: seq<bool>)
    ensures verdicts == [false, true, true, true, false, true, false]
  {
    var fa := NewFixture();
    AgreeingVerdicts(fa);
    var r1 := fa.Accepts("abbbba");
    var r2 := fa.Accepts("aabbbb");
    var r3 := fa.Accepts("bbabbabbabbb");
    var r4 := fa.Accepts("bbbbbbbbb");
    var r5 := fa.Accepts("-");
    var r7 := fa.Accepts("bbbbaabbbb");
    var r8 := fa.Accepts("abba");
    verdicts := [r1, r2, r3, r4, r5, r7, r8];
  }

  /** What the engine answers on the three cases whose test expectation is `False`. */
  method ContradictedCases() returns (verdicts: seq<bool>)
    ensures verdicts == [true, true, true]
  {
    var fa := NewFixture();
    var r6 := fa.Accepts("abababababab");
    var r9 := fa.Accepts("a");
    var r10 := fa.Accepts("aaa");
    verdicts := [r6, r9, r10];
  }
}
