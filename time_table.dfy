/** The time-table tracker of `projects/time_table.py`: a module-level list of
    `{time, work}` routines, a rendering of it, and a menu loop that strips the
    option it reads and the two fields of a new routine. */
module TimeTable {
  import opened PyStr
  import opened Console

  /** One `{"time": ..., "work": ...}` routine. */
  datatype Routine = Routine(time: string, work: string)

  const Menu := "\nTime Table Project\nYou can add your routine here.\n1. Add Item\n2. View Time Table\n3. Exit\n"
  const EmptyMessage := "Time Table is empty."
  const Header := "\nYour Time Table:"
  const Rule := "----------------------------"
  const Footer := "----------------------------\n"
  const GoodbyeMessage := "Exiting the Time Table Project. Goodbye!"
  const AddedMessage := "Routine added successfully!"
  const InvalidMessage := "Invalid option. Please select a valid operation (1-3)."

  const TimeTag := "Time: "
  const WorkTag := " | Work: "

  /** The line printed for one routine: the time after its tag, then the
      work after its own tag, and nothing else. */
  function RoutineLine(item: Routine): (line: string)
    ensures TimeTag + item.time <= line
    ensures |line| == |TimeTag| + |item.time| + |WorkTag| + |item.work|
    ensures line[|TimeTag| + |item.time|..|TimeTag| + |item.time| + |WorkTag|] == WorkTag
    ensures line[|line| - |item.work|..] == item.work
  {
    var line := TimeTag + item.time + WorkTag + item.work;
    assert line == (TimeTag + item.time) + (WorkTag + item.work);
    assert line == (TimeTag + item.time + WorkTag) + item.work;
    line
  }

  function RoutineLines(items: seq<Routine>): seq<string>
  {
    seq(|items|, i requires 0 <= i < |items| => RoutineLine(items[i]))
  }

  /** What `show_time_table` prints for `items`. */
  function View(items: seq<Routine>): (lines: seq<string>)
    ensures items == [] <==> lines == [EmptyMessage]
    ensures items != [] ==> |lines| == |items| + 3
  {
    if items == [] then [EmptyMessage]
    else [Header, Rule] + RoutineLines(items) + [Footer]
  }

  /** The layout of the view: an empty list, and only an empty list, gives the
      empty message alone; otherwise the header and a rule, one line per
      routine in insertion order, and a closing rule. */
  lemma ViewLayout(items: seq<Routine>)
    ensures items == [] <==> View(items) == [EmptyMessage]
    ensures items != [] ==>
      && |View(items)| == |items| + 3
      && View(items)[0] == Header && View(items)[1] == Rule && View(items)[|items| + 2] == Footer
      && forall i :: 0 <= i < |items| ==> View(items)[i + 2] == RoutineLine(items[i])
  {
    if items != [] {
      assert View(items)[0] == Header;
      assert |View(items)| > 1;
    }
  }

  /** The stripped option line is the one-character option `option`: what
      the script's `operation == "3"` (and `"1"`, `"2"`) compares.
      `SelectsIsEquality` proves the two forms the same; `Step` and the lemmas
      use the character form only because the verifier handles it more
      cheaply than equality with a string literal. */
  predicate Selects(operation: string, option: char)
  {
    |operation| == 1 && operation[0] == option
  }

  /** `Selects` is exactly string equality with the one-character option. */
  lemma SelectsIsEquality(operation: string, option: char)
    ensures Selects(operation, option) <==> operation == [option]
  {
  }

  /** One pass through the loop body, reading the input from line `pos` on:
      print the menu, read and strip the option, and carry it out. A pass that
      returns to the prompt has read at least its option line. */
  function Step(items: seq<Routine>, input: seq<string>, pos: nat): (r: StepResult<seq<Routine>>)
    requires pos <= |input|
    ensures pos + r.consumed <= |input|
    ensures r.next == Prompt ==> r.consumed >= 1
    ensures r.output != [] && r.output[0] == Menu
  {
    if pos == |input| then StepResult(items, [Menu], 0, Stop(InputExhausted))
    else
      var operation := Strip(input[pos]);
      if |operation| == 1 && operation[0] == '3' then StepResult(items, [Menu, GoodbyeMessage], 1, Stop(Exited))
      else if |operation| == 1 && operation[0] == '1' then
        if pos + 3 > |input| then StepResult(items, [Menu], |input| - pos, Stop(InputExhausted))
        else StepResult(items + [Routine(Strip(input[pos + 1]), Strip(input[pos + 2]))], [Menu, AddedMessage], 3, Prompt)
      else if |operation| == 1 && operation[0] == '2' then StepResult(items, [Menu] + View(items), 1, Prompt)
      else StepResult(items, [Menu, InvalidMessage], 1, Prompt)
  }

  /** The whole `while True` loop from line `pos` of the input on, run until it
      breaks on `"3"` or runs out of input. Each menu
      script has its own `Replay` over its own `Step`: one shared in `Console`
      and taking the step as a function value would make every unfolding far
      costlier to verify. */
  function Replay(items: seq<Routine>, input: seq<string>, pos: nat): (s: Session<seq<Routine>>)
    requires pos <= |input|
    ensures s.output != [] && s.output[0] == Menu
    decreases |input| - pos
  {
    var r := Step(items, input, pos);
    match r.next
    case Stop(ending) => Session(r.state, r.output, ending)
    case Prompt =>
      var rest := Replay(r.state, input, pos + r.consumed);
      Session(rest.state, r.output + rest.output, rest.ending)
  }

  /** What one pass through the loop does, in terms of the stripped option.
      Only `"3"` leaves the loop (apart from running out of input); only `"1"`
      with both of its field lines changes the list, by appending exactly one
      routine whose time and work are the stripped lines read; `"2"` and every
      unrecognised option leave the list unchanged. */
  lemma StepFacts(items: seq<Routine>, input: seq<string>, pos: nat)
    requires pos <= |input|
    ensures var r := Step(items, input, pos);
      && (r.next == Stop(Exited) <==> pos < |input| && Selects(Strip(input[pos]), '3'))
      && (r.next == Stop(InputExhausted)
          <==> pos == |input| || (Selects(Strip(input[pos]), '1') && pos + 3 > |input|))
      && (r.next == Stop(InputExhausted) ==> pos + r.consumed == |input|)
      && r.state == (if pos + 3 <= |input| && Selects(Strip(input[pos]), '1')
                     then items + [Routine(Strip(input[pos + 1]), Strip(input[pos + 2]))] else items)
      && (pos + 3 <= |input| && Selects(Strip(input[pos]), '1') ==> r.output == [Menu, AddedMessage])
      && (pos < |input| && Selects(Strip(input[pos]), '2') ==> r.output == [Menu] + View(items))
      && ((pos < |input| && !Selects(Strip(input[pos]), '1') && !Selects(Strip(input[pos]), '2')
           && !Selects(Strip(input[pos]), '3')) ==> r.output == [Menu, InvalidMessage] && r.next == Prompt)
  {
  }

  /** Every routine that the loop adds has its time and work free of
      surrounding whitespace. */
  lemma AddedFieldsAreStripped(items: seq<Routine>, input: seq<string>, pos: nat)
    requires pos + 3 <= |input| && Selects(Strip(input[pos]), '1')
    ensures var added := Step(items, input, pos).state[|items|];
      NoEdgeSpace(added.time) && NoEdgeSpace(added.work)
  {
  }

  /** Because the option is stripped first, an option typed with whitespace
      around it, such as `" 1 "`, still selects "add". */
  lemma PaddedOptionSelectsAdd(items: seq<Routine>, pre: string, post: string, time: string, work: string)
    requires AllSpaces(pre) && AllSpaces(post)
    ensures Step(items, [pre + "1" + post, time, work], 0).state == items + [Routine(Strip(time), Strip(work))]
  {
    StripPadding(pre, "1", post);
    StripNoEdgeSpace("1");
    StepFacts(items, [pre + "1" + post, time, work], 0);
  }

  /** One unfolding of the loop: the session is the first pass followed by the
      session on the lines that pass did not read. */
  lemma ReplayUnfold(items: seq<Routine>, input: seq<string>, pos: nat)
    requires pos <= |input|
    ensures var r := Step(items, input, pos);
      Replay(items, input, pos)
      == if r.next == Prompt then Prefixed(r.output, Replay(r.state, input, pos + r.consumed))
         else Session(r.state, r.output, r.next.ending)
  {
  }

  /** The unfolding of the loop, for a first pass already known to be `r`. */
  lemma ReplayAfter(items: seq<Routine>, input: seq<string>, pos: nat, r: StepResult<seq<Routine>>)
    requires pos <= |input| && Step(items, input, pos) == r
    ensures r.next == Prompt ==> Replay(items, input, pos) == Prefixed(r.output, Replay(r.state, input, pos + r.consumed))
    ensures r.next.Stop? ==> Replay(items, input, pos) == Session(r.state, r.output, r.next.ending)
  {
    ReplayUnfold(items, input, pos);
  }

  /** Over a whole session, the routines present at the start are never changed
      or removed: the list only grows at its end. */
  lemma {:induction false} ReplayKeepsRoutines(items: seq<Routine>, input: seq<string>, pos: nat)
    requires pos <= |input|
    ensures |items| <= |Replay(items, input, pos).state|
    ensures Replay(items, input, pos).state[..|items|] == items
    decreases |input| - pos
  {
    var r := Step(items, input, pos);
    if r.next == Prompt {
      ReplayKeepsRoutines(r.state, input, pos + r.consumed);
      var f := Replay(r.state, input, pos + r.consumed).state;
      assert r.state[..|items|] == items;
      assert f[..|items|] == f[..|r.state|][..|items|];
    }
  }

  /** No routine in the list has whitespace around its time or its work. */
  ghost predicate AllStripped(items: seq<Routine>)
  {
    forall i :: 0 <= i < |items| ==> NoEdgeSpace(items[i].time) && NoEdgeSpace(items[i].work)
  }

  /** A session started on a list of stripped routines ends with one: the
      loop never stores a field with surrounding whitespace. */
  lemma {:induction false} ReplayKeepsStripped(items: seq<Routine>, input: seq<string>, pos: nat)
    requires pos <= |input| && AllStripped(items)
    ensures AllStripped(Replay(items, input, pos).state)
    decreases |input| - pos
  {
    var r := Step(items, input, pos);
    if r.next == Prompt {
      if pos + 3 <= |input| && Selects(Strip(input[pos]), '1') {
        AddedFieldsAreStripped(items, input, pos);
      }
      StepFacts(items, input, pos);
      assert AllStripped(r.state);
      ReplayKeepsStripped(r.state, input, pos + r.consumed);
    }
  }

  /** A session ends by the exit option only if some line of input from `pos`
      on strips to `"3"`. The lemma does not say that this line was read as an
      option: a time or work line that strips to `"3"` also satisfies it. */
  lemma {:induction false} ExitNeedsThree(items: seq<Routine>, input: seq<string>, pos: nat)
    requires pos <= |input|
    ensures Replay(items, input, pos).ending == Exited ==>
      exists k :: pos <= k < |input| && Selects(Strip(input[k]), '3')
    decreases |input| - pos
  {
    var r := Step(items, input, pos);
    if r.next == Prompt {
      ExitNeedsThree(r.state, input, pos + r.consumed);
    }
  }

  const EmptyViewInput := ["2", "3"]

  /** Viewing an empty time table prints only the empty message after the menu. */
  lemma EmptyViewScenario()
    ensures Replay([], EmptyViewInput, 0) == Session([], [Menu, EmptyMessage, Menu, GoodbyeMessage], Exited)
  {
    StripNoEdgeSpace("2");
    StripNoEdgeSpace("3");
    assert Step([], EmptyViewInput, 0) == StepResult([], [Menu, EmptyMessage], 1, Prompt);
    assert Replay([], EmptyViewInput, 1) == Session([], [Menu, GoodbyeMessage], Exited);
    ReplayUnfold([], EmptyViewInput, 0);
  }

  /** The first pass of the scenario below: `"1"` adds the routine as typed. */
  lemma AddPass(time: string, work: string)
    requires NoEdgeSpace(time) && NoEdgeSpace(work)
    ensures Step([], ["1", time, work, "2", "3"], 0) == StepResult([Routine(time, work)], [Menu, AddedMessage], 3, Prompt)
  {
    var input := ["1", time, work, "2", "3"];
    assert input[0] == "1" && input[1] == time && input[2] == work;
    StripNoEdgeSpace("1");
    StripNoEdgeSpace(time);
    StripNoEdgeSpace(work);
    assert [] + [Routine(time, work)] == [Routine(time, work)];
  }

  /** The rest of the scenario below: `"2"` shows the one routine, `"3"` exits. */
  lemma ViewThenExit(time: string, work: string)
    ensures Replay([Routine(time, work)], ["1", time, work, "2", "3"], 3)
         == Session([Routine(time, work)],
                    [Menu, Header, Rule, "Time: " + time + " | Work: " + work, Footer, Menu, GoodbyeMessage],
                    Exited)
  {
    var input := ["1", time, work, "2", "3"];
    var items := [Routine(time, work)];
    var shown := [Header, Rule, "Time: " + time + " | Work: " + work, Footer];
    StripNoEdgeSpace("2");
    StripNoEdgeSpace("3");
    assert View(items) == shown;
    assert Step(items, input, 3) == StepResult(items, [Menu] + shown, 1, Prompt);
    assert Replay(items, input, 4) == Session(items, [Menu, GoodbyeMessage], Exited);
    ReplayUnfold(items, input, 3);
  }

  /** Adding one routine whose fields need no stripping, viewing the table
      and exiting: the routine is stored as typed and shown framed. */
  lemma AddThenViewScenario(time: string, work: string)
    requires NoEdgeSpace(time) && NoEdgeSpace(work)
    ensures Replay([], ["1", time, work, "2", "3"], 0)
         == Session([Routine(time, work)],
                    [Menu, AddedMessage]
                    + [Menu, Header, Rule, "Time: " + time + " | Work: " + work, Footer, Menu, GoodbyeMessage],
                    Exited)
  {
    var input := ["1", time, work, "2", "3"];
    var items := [Routine(time, work)];
    AddPass(time, work);
    ViewThenExit(time, work);
    ReplayAfter([], input, 0, StepResult(items, [Menu, AddedMessage], 3, Prompt));
  }

  /** The module-level `time_table` list and the script's loop over it. */
  class TimeTableState {
    var timeTable: seq<Routine>

    /** The list starts out empty. */
    constructor ()
      ensures timeTable == []
    {
      timeTable := [];
    }

    /** `show_time_table`: the empty message, or the framed list of routines
        printed one by one in list order. */
    method ShowTimeTable() returns (lines: seq<string>)
      ensures lines == View(timeTable)
    {
      if timeTable == [] {
        return [EmptyMessage];
      }
      lines := [Header, Rule];
      for i := 0 to |timeTable|
        invariant lines == [Header, Rule] + RoutineLines(timeTable[..i])
      {
        assert RoutineLines(timeTable[..i + 1]) == RoutineLines(timeTable[..i]) + [RoutineLine(timeTable[i])];
        lines := lines + [RoutineLine(timeTable[i])];
      }
      assert timeTable[..|timeTable|] == timeTable;
      lines := lines + [Footer];
    }

    /** One pass through the body of the loop, starting at line `pos` of the
        input: print the menu, read and strip the option, and carry it out. It
        does what `Step` says. */
    method RunOption(input: seq<string>, pos: nat) returns (output: seq<string>, newPos: nat, next: Next)
      requires pos <= |input|
      modifies this
      ensures var r := Step(old(timeTable), input, pos);
        timeTable == r.state && output == r.output && newPos == pos + r.consumed && next == r.next
    {
      output := [Menu];
      newPos := pos;
      if newPos == |input| {
        return output, newPos, Stop(InputExhausted);
      }
      var operation := Strip(input[newPos]);
      newPos := newPos + 1;
      SelectsIsEquality(operation, '1');
      SelectsIsEquality(operation, '2');
      SelectsIsEquality(operation, '3');
      if operation == "3" {
        output := output + [GoodbyeMessage];
        return output, newPos, Stop(Exited);
      }
      next := Prompt;
      if operation == "1" {
        var routine := Routine("", "");
        if newPos == |input| {
          return output, newPos, Stop(InputExhausted);
        }
        routine := routine.(time := Strip(input[newPos]));
        newPos := newPos + 1;
        if newPos == |input| {
          return output, newPos, Stop(InputExhausted);
        }
        routine := routine.(work := Strip(input[newPos]));
        newPos := newPos + 1;
        timeTable := timeTable + [routine];
        output := output + [AddedMessage];
      } else if operation == "2" {
        var shown := ShowTimeTable();
        output := output + shown;
      } else {
        output := output + [InvalidMessage];
      }
    }

    /** One turn of the loop, stated against the whole session: the session
        from line `pos` on is what this turn prints followed by the session
        from where it stopped reading, or it ends with this turn. */
    method Turn(input: seq<string>, pos: nat) returns (printed: seq<string>, newPos: nat, next: Next)
      requires pos <= |input|
      modifies this
      ensures next == Prompt ==>
        && pos < newPos <= |input|
        && Replay(old(timeTable), input, pos) == Prefixed(printed, Replay(timeTable, input, newPos))
      ensures next.Stop? ==> Replay(old(timeTable), input, pos) == Session(timeTable, printed, next.ending)
    {
      ghost var items := timeTable;
      printed, newPos, next := RunOption(input, pos);
      ReplayUnfold(items, input, pos);
    }

    /** The `while True` loop of the script. It behaves exactly as `Replay`
        says, from the list's contents at the start. */
    method MainLoop(input: seq<string>) returns (output: seq<string>, ending: Ending)
      modifies this
      ensures Session(timeTable, output, ending) == Replay(old(timeTable), input, 0)
    {
      ghost var goal := Replay(timeTable, input, 0);
      output := [];
      var pos := 0;
      while true
        invariant 0 <= pos <= |input|
        invariant goal == Prefixed(output, Replay(timeTable, input, pos))
        decreases |input| - pos
      {
        var printed, newPos, next := Turn(input, pos);
        if next.Stop? {
          output := output + printed;
          ending := next.ending;
          break;
        }
        PrefixedTwice(output, printed, Replay(timeTable, input, newPos));
        output := output + printed;
        pos := newPos;
      }
    }
  }
}
