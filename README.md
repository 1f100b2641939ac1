# Lavnya Classes scripts: a verified model of their core

This project models the parts of the Lavnya Classes Python tutorial scripts that
have precisely stateable behaviour, and proves properties about them in Dafny:

- **Student roster** (`students_with_class_filter/func.py`). The module-level
  `students` list is the `StudentFunc.Roster` class with a `seq` field. It has
  three operations: `add_student` appends, `show_students` lists, and
  `students_by_class` filters by exact class equality. `OfClass` is the
  reference definition of the filter.
- **Roster menu** (`students_with_class_filter/main.py`). `StudentMain.Step`
  is one pass of the `while True` loop: print the menu, read a choice token
  and dispatch it. `StudentMain.Replay` is the whole loop. The imperative
  `MainLoop` method, run over the shared `Roster`, is proved to behave exactly
  as `Replay` says.
- **Time table** (`projects/time_table.py`). The module-level `time_table`
  list is the class `TimeTable.TimeTableState`. The rendering
  `show_time_table` and the option loop are included. The loop strips the
  option and both fields before using them.
- **Traffic light** (`projects/traffic_light.py`). `traffic_light` is a total
  lookup, and the script strips and lower-cases the line it reads.
- **Sum helper** (`functions.py`, `calculate_mutiple_numbers`). An
  accumulator loop proved to compute the sum of its arguments. Its docstring
  says "product", but the loop adds; the model follows the loop.
- **Introductions** (`class_inheritance.py`). The classes `Person`, `Student`
  and `Teacher`, with their constructors and `introduce` texts.
- **ID card** (`projects/id_card_generator.py`). The `generate_id_card`
  template is modelled as a pure function. `ReadIdCard` is its inverse for fields without a line break,
  which is how `input()` returns them; the round trip is proved in both
  directions.

`PyStr` models the Python string built-ins these scripts rely on:
- `str.strip()` with Python's exact `isspace` set;
- `str.lower()`;
- `str()` of an integer.

It also holds `JoinLines`, which is how the model writes the multi-line f-string
of `generate_id_card` one template line at a time. `SplitLines` cuts a text at
its line breaks; it serves `ReadIdCard`, the inverse of the card template that
this model adds in order to state the round trip.

`Console` holds the types shared by the two menu loops, and `Prefixed`, which puts a turn's output in front of a session's, with `PrefixedTwice`, which adds two turns' outputs up in order.

**Console model.** A script's console input is the sequence of lines its
`input()` calls read. Its output is the sequence of values passed to `print()`,
one item per call; `print()` with no argument is the item `""`. When `input()`
finds no line left, Python raises `EOFError`. The scripts do not catch it, so
the session ends there. That ending is `Console.Ending.InputExhausted`, and a
command cut short by it changes nothing.

## Model

| member | source | states |
|---|---|---|
| StudentFunc.Roster.constructor | students_with_class_filter/func.py:1 | the module-level list starts out empty |
| StudentFunc.StudentLine | students_with_class_filter/func.py:13 | the line starts with `Name: ` and the name, then `, Class: `, and ends with the class; nothing else is in it |
| StudentFunc.OfClass | students_with_class_filter/func.py:16-22 | the filter result is no longer than the store, and every record in it has exactly the requested class |
| StudentFunc.Roster.AddStudent | students_with_class_filter/func.py:3-8 | appends exactly one record holding the given name and class at the end, so the length grows by one; earlier records are unchanged and duplicates are not rejected |
| StudentFunc.Roster.ShowStudents | students_with_class_filter/func.py:11-13 | prints one line per record, each record exactly once, in insertion order; the store is not modified |
| StudentFunc.Roster.StudentsByClass | students_with_class_filter/func.py:16-22 | the loop returns `OfClass(students, className)`, and each record occurs in the result as often as in the store when its class matches, and not at all otherwise; the store is not modified |
| StudentFunc.OfClassIsSubsequence | students_with_class_filter/func.py:17-20 | the filter result is a subsequence of the store: store order is kept |
| StudentFunc.OfClassPositions | students_with_class_filter/func.py:17-20 | gives the increasing store positions from which the filter result's records come |
| StudentFunc.OfClassSound | students_with_class_filter/func.py:19-20 | every record in the result has exactly the requested class and comes from the store |
| StudentFunc.OfClassCount | students_with_class_filter/func.py:18-20 | each matching record occurs in the result as often as in the store, and non-matching records do not occur |
| StudentFunc.OfClassEmpty | students_with_class_filter/func.py:16-22 | the result is empty exactly when no record has the class; this includes an empty store, with no error |
| StudentFunc.OfClassCaseSensitive | students_with_class_filter/func.py:19 | the comparison is exact: "python" does not select a "Python" record |
| StudentFunc.OfClassTwoStudents | students_with_class_filter/func.py:16-22 | with one Python and one ADCA student, filtering by Python gives the Python student only |
| StudentMain.Step | students_with_class_filter/main.py:12-38 | a pass never reads past the input, and a pass that returns to the prompt reads at least its choice line |
| StudentMain.StepFacts | students_with_class_filter/main.py:12-38 | only `'4'` exits; the input runs out exactly at the end of the input, or when `'1'` lacks one of its two lines or `'3'` lacks its class line; only `'1'` with both lines changes the store, appending one student with the two lines read, and prints the added message; `'2'` prints the header, every record and an empty line; `'3'` prints exactly the filtered records; any other token, unstripped, prints the invalid message and returns to the prompt |
| StudentMain.Replay | students_with_class_filter/main.py:12-13 | every session, whatever its input, starts by printing the menu |
| StudentMain.ReplayKeepsRecords | students_with_class_filter/main.py:12-38 | over a whole session, the records present at the start are never changed or removed |
| StudentMain.ExitNeedsFour | students_with_class_filter/main.py:16-18 | a session ends by exiting only if some input line from the start position on is exactly `'4'` |
| StudentMain.InvalidChoiceChangesNothing | students_with_class_filter/main.py:37-38 | a token outside `'1'`-`'4'` (such as `' 1'`) prints the invalid message and leaves the store as it was |
| StudentMain.FilterScenarioEnd | students_with_class_filter/main.py:31-35 | with Krishna (Python) and Prince (ADCA) stored, `'3'` then `'Python'` shows Krishna only, then `'4'` exits |
| StudentMain.FilterScenario | students_with_class_filter/main.py:12-38 | on the fixed input `ScenarioInput` (add Krishna in Python, add Prince in ADCA, filter by Python, exit), the store holds both records and the filter shows Krishna's line alone |
| StudentMain.RunChoice | students_with_class_filter/main.py:13-38 | one pass of the loop over the shared roster does what `Step` says: new store, output, lines read and whether to go on |
| StudentMain.ClassLines | students_with_class_filter/main.py:32-35 | the filter command prints one line per record of `students_by_class`, in its order |
| StudentMain.Turn | students_with_class_filter/main.py:12-38 | the session from this turn on is what the turn prints followed by the session after it, or it ends with this turn |
| StudentMain.MainLoop | students_with_class_filter/main.py:12-38 | the `while True` loop produces exactly the final store, output and ending that `Replay` gives |
| TimeTable.View | projects/time_table.py:12-21 | the view is the empty message alone exactly when the list is empty; otherwise it has one line per routine plus three |
| TimeTable.RoutineLine | projects/time_table.py:20 | the line starts with `Time: ` and the time, then a bar and `Work: `, and ends with the work; nothing else is in it |
| TimeTable.ViewLayout | projects/time_table.py:12-21 | an empty list, and only an empty list, shows the empty message alone; otherwise the header, a rule, one time-and-work line per routine in order, and the closing rule |
| TimeTable.TimeTableState.ShowTimeTable | projects/time_table.py:12-21 | the rendering loop prints exactly `View(time_table)` |
| TimeTable.Step | projects/time_table.py:24-46 | a pass never reads past the input, and a pass that returns to the prompt reads at least its option line |
| TimeTable.StepFacts | projects/time_table.py:24-46 | only an option that strips to `"3"` exits; the input runs out exactly at the end of the input or when `"1"` lacks one of its two lines; only `"1"` with both lines changes the list, appending one routine with the stripped time and work, and prints the added message; `"2"` shows the table; anything else prints the invalid message |
| TimeTable.AddedFieldsAreStripped | projects/time_table.py:37-38 | a routine added by the loop has no whitespace around its time or work |
| TimeTable.PaddedOptionSelectsAdd | projects/time_table.py:26 | because the option is stripped, `"1"` with whitespace around it still adds the routine |
| TimeTable.Replay | projects/time_table.py:24-25 | every session, whatever its input, starts by printing the menu |
| TimeTable.ReplayKeepsRoutines | projects/time_table.py:24-46 | over a whole session, the routines present at the start are never changed or removed |
| TimeTable.ReplayKeepsStripped | projects/time_table.py:31-41 | a session started with stripped routines ends with stripped routines |
| TimeTable.ExitNeedsThree | projects/time_table.py:28-30 | a session ends by exiting only if some input line from the start position on strips to `"3"` |
| TimeTable.EmptyViewScenario | projects/time_table.py:13-15 | viewing an empty table prints only the empty message after the menu |
| TimeTable.AddPass | projects/time_table.py:31-41 | option `"1"` adds a routine whose fields need no stripping exactly as typed |
| TimeTable.ViewThenExit | projects/time_table.py:17-21 | with one routine, `"2"` shows it framed by the header and rules, then `"3"` exits |
| TimeTable.AddThenViewScenario | projects/time_table.py:24-46 | adding a routine whose fields need no stripping, viewing the table and exiting gives the list with that routine and the expected output |
| TimeTable.TimeTableState.constructor | projects/time_table.py:10 | the module-level list starts out empty |
| TimeTable.TimeTableState.RunOption | projects/time_table.py:25-46 | one pass of the loop over the list does what `Step` says |
| TimeTable.TimeTableState.Turn | projects/time_table.py:24-46 | the session from this turn on is what the turn prints followed by the session after it, or it ends with this turn |
| TimeTable.TimeTableState.MainLoop | projects/time_table.py:24-46 | the `while True` loop produces exactly the final list, output and ending that `Replay` gives |
| TrafficLight.Light | projects/traffic_light.py:3-15 | every input gets exactly one of four messages: "Invalid Signal" iff the signal is not in `signals`, and each colour's message iff it is that colour |
| TrafficLight.LightMatchesTable | projects/traffic_light.py:3-15 | the if/elif chain agrees with a colour-to-message table, and the table's colours are `signals` |
| TrafficLight.Respond | projects/traffic_light.py:20-23 | the script answers with one of the four messages: "Invalid Signal" iff the stripped, lower-cased line is not in `signals`, and each colour's message iff that line is the colour |
| TrafficLight.StripLower | projects/traffic_light.py:20 | stripping and lower-casing can be done in either order |
| TrafficLight.TrimStartLower | projects/traffic_light.py:20 | lower-casing keeps leading whitespace in place |
| TrafficLight.TrimEndLower | projects/traffic_light.py:20 | lower-casing keeps trailing whitespace in place |
| TrafficLight.LowerIdempotent | projects/traffic_light.py:20 | lower-casing twice is lower-casing once |
| TrafficLight.RespondIgnoresCase | projects/traffic_light.py:20-23 | the script's answer does not depend on letter case |
| TrafficLight.RespondIgnoresPadding | projects/traffic_light.py:20-23 | the script's answer does not depend on whitespace around the colour |
| TrafficLight.PaddedCapitalRed | projects/traffic_light.py:20-23 | `"  RED "` yields "Stop the Vehicle" |
| Functions.CalculateMultipleNumbers | functions.py:52-57 | the accumulator loop returns the sum of all its arguments, and 0 for none |
| Functions.SumSnoc | functions.py:55-56 | one more loop step adds the next number to the running sum |
| Functions.SumAppend | functions.py:52-57 | the sum of two runs of arguments is the sum of their sums |
| Functions.Example | functions.py:59 | `calculate_mutiple_numbers(2, 3, 4, 5)` is 14 |
| ClassInheritance.Introduction | class_inheritance.py:7-8 | the introduction starts with the greeting and the name, then " and I am ", and ends with the age followed by " years old." |
| ClassInheritance.SpaceBeforeAge | class_inheritance.py:8 | the character just before the age is a space |
| ClassInheritance.IntroductionInjective | class_inheritance.py:7-8 | the introduction determines both the name and the age |
| ClassInheritance.Person.Introduce | class_inheritance.py:7-8 | the introduction starts with the greeting and the name, then " and I am ", and ends with the age as `str()` prints it followed by " years old." |
| ClassInheritance.Person.constructor | class_inheritance.py:3-5 | stores the name and age as given |
| ClassInheritance.Student.constructor | class_inheritance.py:12-14 | stores name and age as `Person` does, plus the course |
| ClassInheritance.Teacher.constructor | class_inheritance.py:21-23 | stores name and age as `Person` does, plus the subject |
| ClassInheritance.Student.Introduce | class_inheritance.py:16-18 | the person's introduction is a prefix, followed by " I am studying ", the course as given and a full stop |
| ClassInheritance.Teacher.Introduce | class_inheritance.py:25-27 | the person's introduction is a prefix, followed by " I teach ", the subject as given and a full stop |
| ClassInheritance.StudentIntroducesAsPerson | class_inheritance.py:17 | a student's introduction starts with the introduction of a person with the same name and age |
| ClassInheritance.TeacherIntroducesAsPerson | class_inheritance.py:26 | a teacher's introduction starts with the introduction of a person with the same name and age |
| ClassInheritance.Example | class_inheritance.py:37-41 | the two lines the script prints for its student and its teacher |
| IdCardGenerator.GenerateIdCard | projects/id_card_generator.py:6-16 | when no field holds a line break, the card splits into exactly the template's lines: an empty line, a rule, the `ID CARD` header, a rule, the name, age and role lines, a rule and the closing indentation |
| IdCardGenerator.ReadGenerated | projects/id_card_generator.py:6-16 | for fields without a line break, which is how `input()` returns them, reading a generated card back gives exactly the fields it was made from |
| IdCardGenerator.GeneratedRead | projects/id_card_generator.py:6-16 | any text that reads as a card is exactly the card generated from the fields read |
| IdCardGenerator.CardFromInput | projects/id_card_generator.py:24-28 | the three fields have no whitespace at either end, and one-line input gives one-line fields |
| IdCardGenerator.PrintedCardFields | projects/id_card_generator.py:24-28 | the printed card carries the three typed lines, stripped, and nothing else in their place |
| IdCardGenerator.StripOneLine | projects/id_card_generator.py:24-26 | stripping a line never introduces a line break |
| IdCardGenerator.PaddedInput | projects/id_card_generator.py:24-26 | whitespace typed around any of the name, age and role lines does not change the card |
| PyStr.Strip | projects/time_table.py:26 | the result of `strip()` has no whitespace at either end |
| PyStr.StripKeepsMiddle | projects/time_table.py:26 | `strip()` keeps the contiguous piece of the input that starts after its leading whitespace |
| PyStr.StripRemovesSpaces | projects/time_table.py:26 | what `strip()` removes is whitespace only |
| PyStr.StripNoEdgeSpace | projects/time_table.py:37-38 | `strip()` leaves a string with no edge whitespace unchanged |
| PyStr.StripIdempotent | projects/time_table.py:37-38 | stripping twice is stripping once |
| PyStr.StripPadding | projects/traffic_light.py:20 | whitespace added around a string does not change its stripped form |
| PyStr.Lower | projects/traffic_light.py:20 | the model's `Lower` keeps the length and maps each character on its own |
| PyStr.IntToString | class_inheritance.py:8 | `str(n)` is a minus sign for negative numbers, then decimal digits |
| PyStr.NatToStringValue | class_inheritance.py:8 | the digits printed for `n` denote `n` |
| PyStr.IntToStringInjective | class_inheritance.py:8 | different integers print differently |
| PyStr.SplitJoinLines | projects/id_card_generator.py:7-15 | splitting a text joined from one-line pieces gives the pieces back |
| PyStr.JoinSplitLines | projects/id_card_generator.py:7-15 | joining the lines of a text gives the text back |
| PyStr.SplitLinesNoBreak | projects/id_card_generator.py:7-15 | no line of a split text holds a line break |

## Left out

- Prompts: the prompt strings passed to `input()` are not part of the modelled output.
- Each `print()` call is one output item. The line break `print()` adds after each item is not written out.
- End of input: the scripts do not handle it. The model stops the session (`InputExhausted`), and a command cut short by it has no effect.
- StudentMain.MainLoop: the module-level list that `main.py` imports is modelled by passing the shared `Roster` object. Nothing else aliases it.
- ClassInheritance.Student.Introduce: Dafny classes here have no inheritance (traits are not used), so `Student` and `Teacher` carry their own copies of the `Person` fields, and `super().introduce()` is the shared `Introduction` function.
- ClassInheritance.Introduction: the age is an integer. The f-string would format any Python object.
- Functions.CalculateMultipleNumbers: the arguments are integers. Python would also add floats, and floating point is not modelled.
- PyStr.Lower: only the ASCII capitals `A`-`Z` are lower-cased, and each character maps to exactly one. Python's full Unicode case mapping is not modelled. This does not change the traffic light's answer: the only non-ASCII characters whose Python lower case contains ASCII letters are U+212A (Kelvin sign, to `k`) and U+0130 (to `i` followed by U+0307), and neither `k` nor `i` occurs in `red`, `yellow` or `green`, so no line holding them lower-cases to a colour.
- The ID card's `age` is kept as the typed text, as the script keeps it.
- The banner `msg` that `id_card_generator.py` prints before reading is console output and is not modelled. The `my_details` dictionary is modelled as the three stripped fields passed to `CardFromInput`.
- `print_car_details` and the commented-out examples in `functions.py` are outside this model.
- The other scripts are outside this model:
  - the float calculators (`classs_1.py`, `projects/function_with_calculator.py`, `modules/main.py`, `projects/expense_calculator.py`);
  - the wall-clock-dependent `birthday_day_calculator.py`;
  - the thin library wrappers `regex_1.py` and `decorators.py`;
  - the syntax demonstrations `lists.py` and `loops.py`.
