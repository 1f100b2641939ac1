/** The menu loop of `students_with_class_filter/main.py`: it reads a choice
    token and dispatches `'1'` to `add_student`, `'2'` to `show_students`, `'3'`
    to `students_by_class` and `'4'` to leaving the loop; anything else is an
    invalid choice. The token is compared exactly as read, without stripping. */
module StudentMain {
  import opened Console
  import opened StudentFunc

  const Menu := "\nStudent Management System\n1. Add Student\n2. Show All Students\n3. Show Students by Class\n4. Exit\n"
  const ExitMessage := "Exiting the program."
  const AddedMessage := "Student added successfully!\n"
  const AllStudentsHeader := "All Students:"
  const InvalidMessage := "Invalid choice. Please try again.\n"

  /** One pass through the loop body, reading the input from line `pos` on:
      print the menu, read a choice and carry it out. A pass that returns to
      the prompt has read at least its choice line. */
  function Step(store: seq<Student>, input: seq<string>, pos: nat): (r: StepResult<seq<Student>>)
    requires pos <= |input|
    ensures pos + r.consumed <= |input|
    ensures r.next == Prompt ==> r.consumed >= 1
    ensures r.output != [] && r.output[0] == Menu
  {
    if pos == |input| then StepResult(store, [Menu], 0, Stop(InputExhausted))
    else
      var choice := input[pos];
      if choice == "4" then StepResult(store, [Menu, ExitMessage], 1, Stop(Exited))
      else if choice == "1" then
        if pos + 3 > |input| then StepResult(store, [Menu], |input| - pos, Stop(InputExhausted))
        else StepResult(store + [Student(input[pos + 1], input[pos + 2])], [Menu, AddedMessage], 3, Prompt)
      else if choice == "2" then
        StepResult(store, [Menu, AllStudentsHeader] + StudentLines(store) + [""], 1, Prompt)
      else if choice == "3" then
        if pos + 2 > |input| then StepResult(store, [Menu], |input| - pos, Stop(InputExhausted))
        else StepResult(store, [Menu] + StudentLines(OfClass(store, input[pos + 1])), 2, Prompt)
      else StepResult(store, [Menu, InvalidMessage], 1, Prompt)
  }

  /** The whole `while True` loop from line `pos` of the input on, run until it
      breaks on `'4'` or runs out of input. Each menu
      script has its own `Replay` over its own `Step`: one shared in `Console`
      and taking the step as a function value would make every unfolding far
      costlier to verify. */
  function Replay(store: seq<Student>, input: seq<string>, pos: nat): (s: Session<seq<Student>>)
    requires pos <= |input|
    ensures s.output != [] && s.output[0] == Menu
    decreases |input| - pos
  {
    var r := Step(store, input, pos);
    match r.next
    case Stop(ending) => Session(r.state, r.output, ending)
    case Prompt =>
      var rest := Replay(r.state, input, pos + r.consumed);
      Session(rest.state, r.output + rest.output, rest.ending)
  }

  /** What one pass through the loop does. Only `'4'` leaves the loop (apart
      from running out of input); only `'1'` with both of its field lines
      changes the store, by appending exactly one student holding the two lines
      read; `'2'` and `'3'` only display; every other token, compared without
      stripping, prints the invalid-choice message. */
  lemma StepFacts(store: seq<Student>, input: seq<string>, pos: nat)
    requires pos <= |input|
    ensures var r := Step(store, input, pos);
      && (r.next == Stop(Exited) <==> pos < |input| && input[pos] == "4")
      && (r.next == Stop(InputExhausted)
          <==> pos == |input| || (input[pos] == "1" && pos + 3 > |input|) || (input[pos] == "3" && pos + 2 > |input|))
      && (r.next == Stop(InputExhausted) ==> pos + r.consumed == |input|)
      && r.state == (if pos + 3 <= |input| && input[pos] == "1"
                     then store + [Student(input[pos + 1], input[pos + 2])] else store)
      && (pos + 3 <= |input| && input[pos] == "1" ==> r.output == [Menu, AddedMessage])
      && (pos < |input| && input[pos] == "4" ==> r.output == [Menu, ExitMessage])
      && (pos < |input| && input[pos] == "2" ==> r.output == [Menu, AllStudentsHeader] + StudentLines(store) + [""])
      && (pos + 1 < |input| && input[pos] == "3" ==> r.output == [Menu] + StudentLines(OfClass(store, input[pos + 1])))
      && (pos < |input| && input[pos] !in {"1", "2", "3", "4"} ==> r.output == [Menu, InvalidMessage] && r.next == Prompt)
  {
  }

  /** One unfolding of the loop: the session is the first pass followed by the
      session on the lines that pass did not read. */
  lemma ReplayUnfold(store: seq<Student>, input: seq<string>, pos: nat)
    requires pos <= |input|
    ensures var r := Step(store, input, pos);
      Replay(store, input, pos)
      == if r.next == Prompt then Prefixed(r.output, Replay(r.state, input, pos + r.consumed))
         else Session(r.state, r.output, r.next.ending)
  {
  }

  /** Over a whole session, the records present at the start are never changed
      or removed: the store only grows at its end. */
  lemma {:induction false} ReplayKeepsRecords(store: seq<Student>, input: seq<string>, pos: nat)
    requires pos <= |input|
    ensures |store| <= |Replay(store, input, pos).state|
    ensures Replay(store, input, pos).state[..|store|] == store
    decreases |input| - pos
  {
    var r := Step(store, input, pos);
    if r.next == Prompt {
      ReplayKeepsRecords(r.state, input, pos + r.consumed);
      assert r.state[..|store|] == store;
    }
  }

  /** A session ends by the exit command only if some line of input from
      `pos` on is `'4'`. The lemma does not say that this line was read as a
      choice: a `'4'` typed as a name or a class also satisfies it. */
  lemma {:induction false} ExitNeedsFour(store: seq<Student>, input: seq<string>, pos: nat)
    requires pos <= |input|
    ensures Replay(store, input, pos).ending == Exited ==> "4" in input[pos..]
    decreases |input| - pos
  {
    var r := Step(store, input, pos);
    if r.next == Prompt {
      ExitNeedsFour(r.state, input, pos + r.consumed);
      if "4" in input[pos + r.consumed..] {
        var k :| pos + r.consumed <= k < |input| && input[k] == "4";
        assert input[pos..][k - pos] == "4";
      }
    } else if r.next == Stop(Exited) {
      assert input[pos..][0] == "4";
    }
  }

  /** An unrecognised token such as `" 1"` prints the invalid-choice message and
      leaves the store as it was before the rest of the session runs. */
  lemma InvalidChoiceChangesNothing(store: seq<Student>, input: seq<string>, pos: nat)
    requires pos < |input| && input[pos] !in {"1", "2", "3", "4"}
    ensures Replay(store, input, pos) == Prefixed([Menu, InvalidMessage], Replay(store, input, pos + 1))
  {
  }

  const ScenarioInput := ["1", "Krishna", "Python", "1", "Prince", "ADCA", "3", "Python", "4"]

  /** The end of the scenario below: with Krishna (Python) and Prince (ADCA)
      stored, filtering by Python shows Krishna only, then `'4'` exits. */
  lemma FilterScenarioEnd()
    ensures Replay([Student("Krishna", "Python"), Student("Prince", "ADCA")], ScenarioInput, 6)
         == Session([Student("Krishna", "Python"), Student("Prince", "ADCA")],
                    [Menu, "Name: " + "Krishna" + ", Class: " + "Python", Menu, ExitMessage], Exited)
  {
    var s2 := [Student("Krishna", "Python"), Student("Prince", "ADCA")];
    var lines := StudentLines([Student("Krishna", "Python")]);
    assert |lines| == 1 && lines[0] == StudentLine(Student("Krishna", "Python"));
    OfClassTwoStudents();
    assert Step(s2, ScenarioInput, 6) == StepResult(s2, [Menu] + lines, 2, Prompt);
    ReplayUnfold(s2, ScenarioInput, 6);
  }

  /** Adding Krishna to Python and Prince to ADCA, then filtering by Python,
      shows Krishna only. */
  lemma FilterScenario()
    ensures Replay([], ScenarioInput, 0)
         == Session([Student("Krishna", "Python"), Student("Prince", "ADCA")],
                    [Menu, AddedMessage, Menu, AddedMessage, Menu, "Name: " + "Krishna" + ", Class: " + "Python", Menu, ExitMessage],
                    Exited)
  {
    var s1 := [Student("Krishna", "Python")];
    var s2 := [Student("Krishna", "Python"), Student("Prince", "ADCA")];
    var tail := [Menu, "Name: " + "Krishna" + ", Class: " + "Python", Menu, ExitMessage];
    FilterScenarioEnd();
    assert s1 + [Student("Prince", "ADCA")] == s2;
    assert Step(s1, ScenarioInput, 3) == StepResult(s2, [Menu, AddedMessage], 3, Prompt);
    ReplayUnfold(s1, ScenarioInput, 3);
    assert Replay(s1, ScenarioInput, 3) == Session(s2, [Menu, AddedMessage] + tail, Exited);
    assert [] + s1 == s1;
    assert Step([], ScenarioInput, 0) == StepResult(s1, [Menu, AddedMessage], 3, Prompt);
    ReplayUnfold([], ScenarioInput, 0);
  }

  /** One pass through the body of the loop of `main.py`, starting at line
      `pos` of the input: print the menu, read the choice, and dispatch it to the
      roster. It does what `Step` says on the lines not yet read. */
  method RunChoice(roster: Roster, input: seq<string>, pos: nat) returns (output: seq<string>, newPos: nat, next: Next)
    requires pos <= |input|
    modifies roster
    ensures var r := Step(old(roster.students), input, pos);
      roster.students == r.state && output == r.output && newPos == pos + r.consumed && next == r.next
  {
    output := [Menu];
    newPos := pos;
    if newPos == |input| {
      return output, newPos, Stop(InputExhausted);
    }
    var choice := input[newPos];
    newPos := newPos + 1;
    if choice == "4" {
      output := output + [ExitMessage];
      return output, newPos, Stop(Exited);
    }
    next := Prompt;
    if choice == "1" {
      if newPos == |input| {
        return output, newPos, Stop(InputExhausted);
      }
      var name := input[newPos];
      newPos := newPos + 1;
      if newPos == |input| {
        return output, newPos, Stop(InputExhausted);
      }
      var className := input[newPos];
      newPos := newPos + 1;
      roster.AddStudent(name, className);
      output := output + [AddedMessage];
    } else if choice == "2" {
      output := output + [AllStudentsHeader];
      var lines := roster.ShowStudents();
      assert lines == StudentLines(roster.students);
      output := output + lines + [""];
    } else if choice == "3" {
      if newPos == |input| {
        return output, newPos, Stop(InputExhausted);
      }
      var className := input[newPos];
      newPos := newPos + 1;
      var lines := ClassLines(roster, className);
      output := output + lines;
    } else {
      output := output + [InvalidMessage];
    }
  }

  /** The lines the filter command prints: `students_by_class`, then one
      line per record it returned. */
  method ClassLines(roster: Roster, className: string) returns (output: seq<string>)
    ensures output == StudentLines(OfClass(roster.students, className))
  {
    var filtered := roster.StudentsByClass(className);
    output := [];
    for k := 0 to |filtered|
      invariant output == StudentLines(filtered[..k])
    {
      assert StudentLines(filtered[..k + 1]) == StudentLines(filtered[..k]) + [StudentLine(filtered[k])];
      output := output + [StudentLine(filtered[k])];
    }
    assert filtered[..|filtered|] == filtered;
  }

  /** One turn of the loop, stated against the whole session: the session
      from line `pos` on is what this turn prints followed by the session from
      where it stopped reading, or it ends with this turn. */
  method Turn(roster: Roster, input: seq<string>, pos: nat) returns (printed: seq<string>, newPos: nat, next: Next)
    requires pos <= |input|
    modifies roster
    ensures next == Prompt ==>
      && pos < newPos <= |input|
      && Replay(old(roster.students), input, pos) == Prefixed(printed, Replay(roster.students, input, newPos))
    ensures next.Stop? ==> Replay(old(roster.students), input, pos) == Session(roster.students, printed, next.ending)
  {
    ReplayUnfold(roster.students, input, pos);
    printed, newPos, next := RunChoice(roster, input, pos);
  }

  /** The `while True` loop of `main.py`, run on the shared roster. It behaves
      exactly as `Replay` says, from the roster's contents at the start. */
  method MainLoop(roster: Roster, input: seq<string>) returns (output: seq<string>, ending: Ending)
    modifies roster
    ensures Session(roster.students, output, ending) == Replay(old(roster.students), input, 0)
  {
    ghost var goal := Replay(roster.students, input, 0);
    output := [];
    var pos := 0;
    while true
      invariant 0 <= pos <= |input|
      invariant goal == Prefixed(output, Replay(roster.students, input, pos))
      decreases |input| - pos
    {
      var printed, newPos, next := Turn(roster, input, pos);
      if next.Stop? {
        output := output + printed;
        ending := next.ending;
        break;
      }
      PrefixedTwice(output, printed, Replay(roster.students, input, newPos));
      output := output + printed;
      pos := newPos;
    }
  }
}
