/** The console the interactive scripts talk to. Each script's input is the
    sequence of lines that its `input()` calls read, in order, and its output is
    the sequence of values passed to `print()`, one item per call. */
module Console {

  /** How an interactive session ended: by its exit command, or because an
      `input()` call found no line left to read (Python raises `EOFError`,
      which the scripts do not catch, so the script stops there). */
  datatype Ending = Exited | InputExhausted

  /** After one pass through a loop body: prompt again, or stop. */
  datatype Next = Prompt | Stop(ending: Ending)

  /** One pass through a loop body: the state it leaves, what it printed, how
      many input lines it read, and whether the loop goes on. */
  datatype StepResult<S> = StepResult(state: S, output: seq<string>, consumed: nat, next: Next)

  /** A whole session: the final state, everything printed, and how it ended. */
  datatype Session<S> = Session(state: S, output: seq<string>, ending: Ending)

  /** A session with `printed` shown before its own output. */
  function Prefixed<S>(printed: seq<string>, s: Session<S>): Session<S>
  {
    Session(s.state, printed + s.output, s.ending)
  }

  lemma PrefixedTwice<S>(first: seq<string>, second: seq<string>, s: Session<S>)
    ensures Prefixed(first, Prefixed(second, s)) == Prefixed(first + second, s)
  {
    assert first + (second + s.output) == first + second + s.output;
  }
}
