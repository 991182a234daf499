/**
 * A deterministic finite automaton whose transition function is partial: the
 * table is a nested map `state -> (symbol -> state)`, and a missing entry means
 * "no move", which makes the run stop and reject the input.
 */
module FiniteAutomata {
  import opened Wrappers

  class FiniteAutomaton<State(==), Symbol(==)> {
    // The five attributes are assigned once by the constructor and never again.
    const states: seq<State>
    const alphabet: seq<Symbol>
    const transitions: map<State, map<Symbol, State>>
    const initialState: State
    const finalStates: seq<State>

    /** Stores the definition exactly as given; nothing is checked. */
    constructor (states: seq<State>, alphabet: seq<Symbol>,
                 transitions: map<State, map<Symbol, State>>,
                 initialState: State, finalStates: seq<State>)
      ensures this.states == states && this.alphabet == alphabet
      ensures this.transitions == transitions
      ensures this.initialState == initialState && this.finalStates == finalStates
    {
      this.states := states;
      this.alphabet := alphabet;
      this.transitions := transitions;
      this.initialState := initialState;
      this.finalStates := finalStates;
    }

    /** One step: the target of the table entry for (state, symbol), if there is one. */
    function Transition(state: State, symbol: Symbol): (next: Option<State>)
      ensures next.Some? <==> state in transitions && symbol in transitions[state]
      ensures next.Some? ==> next.value == transitions[state][symbol]
    {
      if state in transitions && symbol in transitions[state] then
        Some(transitions[state][symbol])
      else
        None
    }

    /**
     * The extended transition function δ*: the state reached from `q` after
     * reading all of `input`, or None once a step has no table entry.
     */
    function Run(q: State, input: seq<Symbol>): Option<State>
      decreases |input|
    {
      if input == [] then Some(q)
      else
        match Transition(q, input[0])
        case None => None
        case Some(p) => Run(p, input[1..])
    }

    /** The language of the automaton: the run is defined and ends in a final state. */
    predicate Accepted(input: seq<Symbol>)
    {
      var reached := Run(initialState, input);
      reached.Some? && reached.value in finalStates
    }

    /**
     * Walks the input one symbol at a time and rejects as soon as a step has
     * no table entry; otherwise tests the state reached against the final states.
     */
    method Accepts(input: seq<Symbol>) returns (accepted: bool)
      ensures accepted == Accepted(input)
    {
      var current := Some(initialState);
      for i := 0 to |input|
        invariant current == Run(initialState, input[..i])
        invariant current.Some?
      {
        RunSnoc(initialState, input[..i], input[i]);
        assert input[..i + 1] == input[..i] + [input[i]];
        current := Transition(current.value, input[i]);
        if current == None {
          RunStuck(initialState, input[..i + 1], input[i + 1..]);
          assert input[..i + 1] + input[i + 1..] == input;
          return false;
        }
      }
      assert input[..|input|] == input;
      accepted := current.value in finalStates;
    }

    /** Reading one symbol is one call of Transition. */
    lemma RunSingle(q: State, x: Symbol)
      ensures Run(q, [x]) == Transition(q, x)
    {
    }

    /** δ* threads the state: after a defined run on `u`, reading `v` continues from where it ended. */
    lemma {:induction false} RunComposition(q: State, u: seq<Symbol>, v: seq<Symbol>)
      requires Run(q, u).Some?
      ensures Run(q, u + v) == Run(Run(q, u).value, v)
      decreases |u|
    {
      if u == [] {
        assert u + v == v;
      } else {
        assert (u + v)[0] == u[0] && (u + v)[1..] == u[1..] + v;
        RunComposition(Transition(q, u[0]).value, u[1..], v);
      }
    }

    /** Once a run is stuck it stays stuck, whatever follows. */
    lemma {:induction false} RunStuck(q: State, u: seq<Symbol>, v: seq<Symbol>)
      requires Run(q, u) == None
      ensures Run(q, u + v) == None
      decreases |u|
    {
      assert u != [];
      assert (u + v)[0] == u[0] && (u + v)[1..] == u[1..] + v;
      if Transition(q, u[0]).Some? {
        RunStuck(Transition(q, u[0]).value, u[1..], v);
      }
    }

    /** Reading one more symbol is one more Transition from the state reached, if any. */
    lemma RunSnoc(q: State, u: seq<Symbol>, x: Symbol)
      ensures Run(q, u + [x]) ==
        match Run(q, u)
        case None => None
        case Some(p) => Transition(p, x)
    {
      match Run(q, u)
      case None => RunStuck(q, u, [x]);
      case Some(p) =>
        RunComposition(q, u, [x]);
        RunSingle(p, x);
    }

    /** The empty input is accepted exactly when the initial state is final. */
    lemma AcceptedEmpty()
      ensures Accepted([]) <==> initialState in finalStates
    {
    }

    /** A prefix with no defined run rejects every extension of it. */
    lemma EarlyRejection(u: seq<Symbol>, v: seq<Symbol>)
      requires Run(initialState, u) == None
      ensures !Accepted(u + v)
    {
      RunStuck(initialState, u, v);
    }

    /** Every table target lies in `s`. */
    predicate TargetsWithin(s: seq<State>)
    {
      forall q, x :: q in transitions && x in transitions[q] ==> transitions[q][x] in s
    }

    /**
     * A run started inside `s`, over a table whose targets all lie in `s`,
     * never leaves `s`.
     */
    lemma {:induction false} RunStaysWithin(s: seq<State>, q: State, input: seq<Symbol>)
      requires q in s && TargetsWithin(s)
      ensures Run(q, input).Some? ==> Run(q, input).value in s
      decreases |input|
    {
      if input != [] && Transition(q, input[0]).Some? {
        RunStaysWithin(s, Transition(q, input[0]).value, input[1..]);
      }
    }

    /**
     * Runs depend on the transition table only: an automaton with the same
     * table reaches the same state, whatever its states and alphabet.
     */
    lemma {:induction false} RunIgnoresStatesAndAlphabet(
      other: FiniteAutomaton<State, Symbol>, q: State, input: seq<Symbol>)
      requires other.transitions == transitions
      ensures other.Run(q, input) == Run(q, input)
      decreases |input|
    {
      if input != [] && Transition(q, input[0]).Some? {
        RunIgnoresStatesAndAlphabet(other, Transition(q, input[0]).value, input[1..]);
      }
    }

    /**
     * Acceptance depends on the table, the initial state and the final states
     * only; the `states` and `alphabet` attributes play no part.
     */
    lemma AcceptedIgnoresStatesAndAlphabet(other: FiniteAutomaton<State, Symbol>, input: seq<Symbol>)
      requires other.transitions == transitions
      requires other.initialState == initialState && other.finalStates == finalStates
      ensures other.Accepted(input) == Accepted(input)
    {
      RunIgnoresStatesAndAlphabet(other, initialState, input);
    }
  }
}
