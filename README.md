# Deterministic finite automaton engine

A model of the `FiniteAutomaton` class of the finite-automaton repository: a
deterministic finite automaton given by its states, its alphabet, a nested
transition table `state -> (symbol -> state)`, an initial state and a list of
final states. The table is partial; a missing entry is not an error but a
"no move" answer, and a run that meets one rejects its input at once.

- `wrappers.dfy` — `Option`, the model of "a state or Python's `None`".
- `finite_automaton.dfy` — module `FiniteAutomata`, class `FiniteAutomaton`,
  generic in the state and symbol types. The five attributes are `const`
  fields: the constructor assigns them as given and nothing changes them
  afterwards. `Transition` is the one-step lookup. `Run` is the extended
  transition function δ* (`Run(q, []) == Some(q)`, and otherwise one
  `Transition` and then the rest). `Accepted` is the language defined by
  `Run`. `Accepts` is the source's `for` loop with its early `return False`.
  Its loop invariant is `current == Run(initialState, input[..i])`, and it is
  proved to compute `Accepted`.
- `fixture.dfy` — module `AutomatonFixture`, the automaton of the unit test
  `test.py:6` and its verdicts.

Nothing is validated at construction, as in the source. The initial state and
the table targets need not be among `states`, the symbols need not be in
`alphabet`, and no operation requires that they are. Neither query can change
the automaton: `Transition`, `Run` and `Accepted` are functions, `Accepts` has
no `modifies` clause, and the fields are constants.

The unit test disagrees with the engine on three cases:
`abababababab` (`test.py:13`), `a` (`test.py:16`) and `aaa` (`test.py:17`).
The test expects `False` for each. With final states `[1, 2]`, these runs end
in state 1 (0→1→2→0→… ending in 1; 0→1; 0→1→1→1), and the engine returns
`True`. The model follows the engine: `AutomatonFixture.ContradictedCases`
proves `True` for all three, and `AutomatonFixture.AgreeingCases` proves the
seven cases on which test and engine agree.

## Model

| member | source | states |
|---|---|---|
| `FiniteAutomata.FiniteAutomaton.constructor` | finite_automaton.py:16-34 | the five attributes are exactly the arguments; no check is made on them |
| `FiniteAutomata.FiniteAutomaton.Transition` | finite_automaton.py:36-51 | a state is returned exactly when the state is a key of the table and the symbol a key of its row, and then it is that entry; otherwise the answer is None |
| `FiniteAutomata.FiniteAutomaton.Accepts` | finite_automaton.py:53-68 | the loop's verdict equals acceptance by δ*: true exactly when δ*(initial state, input) is defined and is in the final-state list, false on the first missing move |
| `FiniteAutomata.FiniteAutomaton.RunSingle` | finite_automaton.py:64-65 | δ* on a one-symbol input is one `transition` call |
| `FiniteAutomata.FiniteAutomaton.RunComposition` | finite_automaton.py:64-65 | when δ*(q, u) is defined, δ*(q, u + v) = δ*(δ*(q, u), v): the loop carries the state from one step to the next |
| `FiniteAutomata.FiniteAutomaton.RunStuck` | finite_automaton.py:66-67 | once δ*(q, u) is undefined, δ*(q, u + v) is undefined for every suffix v |
| `FiniteAutomata.FiniteAutomaton.RunSnoc` | finite_automaton.py:64-67 | δ* on u followed by one symbol x is undefined if δ*(q, u) is, and otherwise is the transition from δ*(q, u) on x; this is the step the loop takes |
| `FiniteAutomata.FiniteAutomaton.AcceptedEmpty` | finite_automaton.py:63-68 | the empty input is accepted exactly when the initial state is in the final-state list |
| `FiniteAutomata.FiniteAutomaton.EarlyRejection` | finite_automaton.py:64-67 | if the run on a prefix u is undefined, then u + v is rejected for every v |
| `FiniteAutomata.FiniteAutomaton.RunStaysWithin` | finite_automaton.py:8-11 | a run that starts in a list of states, over a table whose targets all lie in that list, only reaches states of that list |
| `FiniteAutomata.FiniteAutomaton.RunIgnoresStatesAndAlphabet` | finite_automaton.py:36-51 | two automata with the same table have the same δ*, whatever their states and alphabets |
| `FiniteAutomata.FiniteAutomaton.AcceptedIgnoresStatesAndAlphabet` | finite_automaton.py:53-68 | acceptance depends only on the table, the initial state and the final states, never on `states` or `alphabet` |
| `AutomatonFixture.NewFixture` | test.py:6 | builds the test's automaton: states 0, 1, 2, alphabet a, b, the test's table, initial 0, finals [1, 2] |
| `AutomatonFixture.AgreeingVerdicts` | test.py:8-15 | on the test's automaton, `abbbba`, `-` and `abba` are rejected, and `aabbbb`, `bbabbabbabbb`, `bbbbbbbbb` and `bbbbaabbbb` are accepted |
| `AutomatonFixture.AgreeingCases` | test.py:8-15 | the engine's verdicts on the seven test cases that agree with it, in the test's order |
| `AutomatonFixture.ContradictedCases` | test.py:13-17 | the engine accepts `abababababab`, `a` and `aaa` on the test's automaton, although the test expects rejection |

## Left out

- `read_automaton` (finite_automaton.py:71-99): interactive input. It prompts, parses integers, drops the first token of the alphabet and final-state lines, caps them at ten entries, and returns the integer `1` when the state count is out of range. The engine receives the finished definition as constructor arguments.
- The `__main__` block (finite_automaton.py:101-111): prompting, truncating each string to 20 characters, and printing `aceita` or `rejeita`. These are I/O.
- The `unittest` harness (test.py): only its automaton and its cases are modelled, in `fixture.dfy`.
- Python's `None` as a value: states and symbols are generic Dafny values, so none of them can be `None`. In the source, a table entry whose target is `None` would look like a missing move. The model has no such entry.
- Python's loose key equality (for example `1 == True` as dictionary keys) is not modelled; keys compare with Dafny's equality.
- Input strings are sequences of symbols. The source iterates a Python string character by character, so a multi-character symbol in the table can never match; in the model that is the case of a `Symbol` that is never in the input.
- Concurrency and repeated-call determinism add nothing here: every query is a function of the constant fields and its arguments.
