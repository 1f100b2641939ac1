/** The student roster store of `students_with_class_filter/func.py`: a
    module-level list of `{name, class}` records with an append, a full listing
    and a filter by class. */
module StudentFunc {

  /** One `{'name': ..., 'class': ...}` record. */
  datatype Student = Student(name: string, className: string)

  const NameTag := "Name: "
  const ClassTag := ", Class: "

  /** The line printed for a student, by `show_students` and by the filter
      command of the menu alike. */
  function StudentLine(s: Student): (line: string)
    ensures NameTag + s.name <= line
    ensures |line| == |NameTag| + |s.name| + |ClassTag| + |s.className|
    ensures line[|NameTag| + |s.name|..|NameTag| + |s.name| + |ClassTag|] == ClassTag
    ensures line[|line| - |s.className|..] == s.className
  {
    var line := NameTag + s.name + ClassTag + s.className;
    assert line == (NameTag + s.name) + (ClassTag + s.className);
    assert line == (NameTag + s.name + ClassTag) + s.className;
    line
  }

  function StudentLines(students: seq<Student>): seq<string>
  {
    seq(|students|, i requires 0 <= i < |students| => StudentLine(students[i]))
  }

  /** Reference definition of the filter: the records of `students` whose class
      is exactly `className`, in store order. */
  function OfClass(students: seq<Student>, className: string): (r: seq<Student>)
    ensures |r| <= |students|
    ensures forall i :: 0 <= i < |r| ==> r[i].className == className
  {
    if students == [] then []
    else
      var last := students[|students| - 1];
      OfClass(students[..|students| - 1], className) + (if last.className == className then [last] else [])
  }

  /** `idx` lists, in increasing order, positions of `ys` that hold the elements of `xs`. */
  ghost predicate Embeds<T>(idx: seq<nat>, xs: seq<T>, ys: seq<T>)
  {
    |idx| == |xs|
    && (forall k :: 0 <= k < |idx| ==> idx[k] < |ys| && xs[k] == ys[idx[k]])
    && (forall k, l :: 0 <= k < l < |idx| ==> idx[k] < idx[l])
  }

  /** `xs` is `ys` with some elements left out and the rest kept in order. */
  ghost predicate IsSubsequence<T>(xs: seq<T>, ys: seq<T>)
  {
    exists idx :: Embeds(idx, xs, ys)
  }

  /** The filter result is a subsequence of the store: it keeps store order. */
  lemma {:induction false} OfClassIsSubsequence(students: seq<Student>, className: string)
    ensures IsSubsequence(OfClass(students, className), students)
  {
    var idx := OfClassPositions(students, className);
  }

  lemma {:induction false} OfClassPositions(students: seq<Student>, className: string)
    returns (idx: seq<nat>)
    ensures Embeds(idx, OfClass(students, className), students)
  {
    if students == [] {
      idx := [];
    } else {
      var n := |students| - 1;
      var init := students[..n];
      var prev := OfClassPositions(init, className);
      idx := prev + (if students[n].className == className then [n] else []);
      var r := OfClass(students, className);
      assert r == OfClass(init, className) + (if students[n].className == className then [students[n]] else []);
      forall k | 0 <= k < |idx| ensures idx[k] < |students| && r[k] == students[idx[k]] {
        if k < |prev| {
          assert init[prev[k]] == students[prev[k]];
        }
      }
    }
  }

  /** Every record in the filter result has exactly the requested class, and is in the store. */
  lemma {:induction false} OfClassSound(students: seq<Student>, className: string)
    ensures forall s :: s in OfClass(students, className) ==> s.className == className && s in students
  {
    if students != [] {
      var n := |students| - 1;
      OfClassSound(students[..n], className);
      forall s | s in students[..n] ensures s in students {
        var k :| 0 <= k < n && students[..n][k] == s;
        assert students[k] == s;
      }
    }
  }

  /** The filter keeps exactly the matching records: each record occurs in the
      result as often as in the store if its class matches, and not at all
      otherwise. */
  lemma {:induction false} OfClassCount(students: seq<Student>, className: string, s: Student)
    ensures multiset(OfClass(students, className))[s]
         == if s.className == className then multiset(students)[s] else 0
  {
    if students != [] {
      var n := |students| - 1;
      OfClassCount(students[..n], className, s);
      assert students == students[..n] + [students[n]];
    }
  }

  /** The filter is empty exactly when no record has the requested class; in
      particular filtering an empty store gives an empty result, not an error. */
  lemma OfClassEmpty(students: seq<Student>, className: string)
    ensures OfClass(students, className) == []
        <==> forall i :: 0 <= i < |students| ==> students[i].className != className
  {
    forall s | true ensures multiset(OfClass(students, className))[s]
                    == if s.className == className then multiset(students)[s] else 0 {
      OfClassCount(students, className, s);
    }
    if OfClass(students, className) == [] {
      forall i | 0 <= i < |students| ensures students[i].className != className {
        assert students[i] in multiset(students);
      }
    } else {
      var s := OfClass(students, className)[0];
      assert s in multiset(OfClass(students, className));
      assert s in multiset(students);
      var i :| 0 <= i < |students| && students[i] == s;
    }
  }

  /** The class comparison is exact and case-sensitive. */
  lemma OfClassCaseSensitive()
    ensures OfClass([Student("Krishna", "Python")], "python") == []
    ensures OfClass([Student("Krishna", "Python")], "Python") == [Student("Krishna", "Python")]
  {
  }

  /** Two students of different classes: filtering by one class finds only its student. */
  lemma OfClassTwoStudents()
    ensures OfClass([Student("Krishna", "Python"), Student("Prince", "ADCA")], "Python")
         == [Student("Krishna", "Python")]
  {
    var s := [Student("Krishna", "Python"), Student("Prince", "ADCA")];
    assert s[..1] == [Student("Krishna", "Python")];
  }

  /** The module-level `students` list. */
  class Roster {
    var students: seq<Student>

    /** The list starts out empty. */
    constructor ()
      ensures students == []
    {
      students := [];
    }

    /** `add_student`: one new record at the end; earlier records are kept as
        they were and no uniqueness is checked, so duplicates are allowed. */
    method AddStudent(name: string, className: string)
      modifies this
      ensures students == old(students) + [Student(name, className)]
      ensures |students| == |old(students)| + 1
      ensures forall i :: 0 <= i < |old(students)| ==> students[i] == old(students)[i]
    {
      var student := Student(name, className);
      students := students + [student];
    }

    /** `show_students`: one line per record, every record exactly once, in
        insertion order. The store is not modified. */
    method ShowStudents() returns (lines: seq<string>)
      ensures |lines| == |students|
      ensures forall i :: 0 <= i < |students| ==> lines[i] == StudentLine(students[i])
    {
      lines := [];
      for i := 0 to |students|
        invariant |lines| == i
        invariant forall k :: 0 <= k < i ==> lines[k] == StudentLine(students[k])
      {
        lines := lines + [StudentLine(students[i])];
      }
    }

    /** `students_by_class`: a linear scan that collects the records whose class
        equals `className`. The store is not modified. */
    method StudentsByClass(className: string) returns (filtered: seq<Student>)
      ensures filtered == OfClass(students, className)
      ensures forall s :: multiset(filtered)[s]
                       == if s.className == className then multiset(students)[s] else 0
    {
      filtered := [];
      for i := 0 to |students|
        invariant filtered == OfClass(students[..i], className)
      {
        assert students[..i + 1][..i] == students[..i];
        if students[i].className == className {
          filtered := filtered + [students[i]];
        }
      }
      assert students[..|students|] == students;
      forall s | true ensures multiset(filtered)[s]
                      == if s.className == className then multiset(students)[s] else 0 {
        OfClassCount(students, className, s);
      }
    }
  }
}
