/** The classes of `class_inheritance.py`: a `Person` with a name and an age
    who can introduce themselves, and the subclasses `Student` and `Teacher`,
    which keep the person's fields, add one of their own, and extend the
    person's introduction with a sentence about it. */
module ClassInheritance {
  import opened PyStr

  const Greeting := "Hello, my name is "
  const AgeIntro := " and I am "
  const AgeOutro := " years old."
  const Studying := " I am studying "
  const Teaching := " I teach "

  /** `Person.introduce` for a person with this name and age. The name comes
      right after the greeting, and the sentence ends with the age followed
      by " years old.". */
  function Introduction(name: string, age: int): (r: string)
    ensures Greeting + name <= r
    ensures |r| == |Greeting| + |name| + |AgeIntro| + |IntToString(age)| + |AgeOutro|
    ensures r[|Greeting| + |name|..|Greeting| + |name| + |AgeIntro|] == AgeIntro
    ensures r[|r| - |AgeOutro|..] == AgeOutro
    ensures r[|r| - |AgeOutro| - |IntToString(age)|..|r| - |AgeOutro|] == IntToString(age)
  {
    var s := Greeting + name + AgeIntro + IntToString(age) + AgeOutro;
    assert s == (Greeting + name) + (AgeIntro + IntToString(age) + AgeOutro);
    assert s == (Greeting + name + AgeIntro) + IntToString(age) + AgeOutro;
    s
  }

  /** The character just before the age in an introduction is a space. */
  lemma SpaceBeforeAge(name: string, age: int)
    ensures var r := Introduction(name, age);
      r[|r| - |AgeOutro| - |IntToString(age)| - 1] == ' '
  {
    var r := Introduction(name, age);
    var a := IntToString(age);
    assert r == (Greeting + name + AgeIntro) + (a + AgeOutro);
  }

  /** No one is introduced the same way as someone else: the introduction
      determines both the name and the age. The age is the run of digits
      right before " years old.", preceded by a space that no digit or minus
      sign can stand in for; the name is what lies between the greeting and
      the age's lead-in. */
  lemma IntroductionInjective(name1: string, age1: int, name2: string, age2: int)
    requires Introduction(name1, age1) == Introduction(name2, age2)
    ensures name1 == name2 && age1 == age2
  {
    var r := Introduction(name1, age1);
    var a1 := IntToString(age1);
    var a2 := IntToString(age2);
    var end := |r| - |AgeOutro|;
    SpaceBeforeAge(name1, age1);
    SpaceBeforeAge(name2, age2);
    if |a1| < |a2| {
      assert false;
    } else if |a2| < |a1| {
      assert false;
    }
    assert a1 == r[end - |a1|..end] == a2;
    IntToStringInjective(age1, age2);
    assert name1 == r[|Greeting|..|Greeting| + |name1|] == name2;
  }

  /** `Person`: the constructor stores the name and the age as given. */
  class Person {
    var name: string
    var age: int

    constructor (name: string, age: int)
      ensures this.name == name && this.age == age
    {
      this.name := name;
      this.age := age;
    }

    /** `introduce`: the greeting and the name first, the age as `str()`
        prints it, then " years old.". */
    function Introduce(): (r: string)
      reads this
      ensures Greeting + name <= r
      ensures |r| == |Greeting| + |name| + |AgeIntro| + |IntToString(age)| + |AgeOutro|
    ensures r[|Greeting| + |name|..|Greeting| + |name| + |AgeIntro|] == AgeIntro
      ensures r[|r| - |AgeOutro|..] == AgeOutro
      ensures r[|r| - |AgeOutro| - |IntToString(age)|..|r| - |AgeOutro|] == IntToString(age)
    {
      Introduction(name, age)
    }
  }

  /** `Student(Person)`: the person's fields, stored as `Person` stores them,
      and a course. */
  class Student {
    var name: string
    var age: int
    var course: string

    constructor (name: string, age: int, course: string)
      ensures this.name == name && this.age == age && this.course == course
    {
      this.name := name;
      this.age := age;
      this.course := course;
    }

    /** The person's introduction followed by " I am studying <course>.": the
        base introduction is a prefix, and the course stands, as given,
        between the added lead-in and the closing full stop. */
    function Introduce(): (r: string)
      reads this
      ensures Introduction(name, age) <= r
      ensures |r| == |Introduction(name, age)| + |Studying| + |course| + 1 && r[|r| - 1] == '.'
      ensures r[|Introduction(name, age)|..|Introduction(name, age)| + |Studying|] == Studying
      ensures r[|Introduction(name, age)| + |Studying|..|r| - 1] == course
    {
      var base := Introduction(name, age);
      var r := base + Studying + course + ".";
      assert r == base + (Studying + course + ".");
      assert r == (base + Studying) + course + ".";
      r
    }
  }

  /** `Teacher(Person)`: the person's fields, stored as `Person` stores them,
      and a subject. */
  class Teacher {
    var name: string
    var age: int
    var subject: string

    constructor (name: string, age: int, subject: string)
      ensures this.name == name && this.age == age && this.subject == subject
    {
      this.name := name;
      this.age := age;
      this.subject := subject;
    }

    /** The person's introduction followed by " I teach <subject>.": the base
        introduction is a prefix, and the subject stands, as given, between
        the added lead-in and the closing full stop. */
    function Introduce(): (r: string)
      reads this
      ensures Introduction(name, age) <= r
      ensures |r| == |Introduction(name, age)| + |Teaching| + |subject| + 1 && r[|r| - 1] == '.'
      ensures r[|Introduction(name, age)|..|Introduction(name, age)| + |Teaching|] == Teaching
      ensures r[|Introduction(name, age)| + |Teaching|..|r| - 1] == subject
    {
      var base := Introduction(name, age);
      var r := base + Teaching + subject + ".";
      assert r == base + (Teaching + subject + ".");
      assert r == (base + Teaching) + subject + ".";
      r
    }
  }

  /** A student and a person with the same name and age open their
      introductions identically. */
  lemma StudentIntroducesAsPerson(p: Person, s: Student)
    requires p.name == s.name && p.age == s.age
    ensures p.Introduce() <= s.Introduce()
  {
  }

  /** A teacher and a person with the same name and age open their
      introductions identically. */
  lemma TeacherIntroducesAsPerson(p: Person, t: Teacher)
    requires p.name == t.name && p.age == t.age
    ensures p.Introduce() <= t.Introduce()
  {
  }

  lemma ScriptAges()
    ensures IntToString(22) == "22" && IntToString(45) == "45"
  {
    assert NatToString(22) == NatToString(2) + [DigitChar(2)];
    assert NatToString(45) == NatToString(4) + [DigitChar(5)];
  }

  /** The two objects the script builds, and what it prints for them. */
  method Example() returns (studentLine: string, teacherLine: string)
    ensures studentLine == Greeting + "Prince" + AgeIntro + "22" + AgeOutro + Studying + "Python Programming" + "."
    ensures teacherLine == Greeting + "Mr. Smith" + AgeIntro + "45" + AgeOutro + Teaching + "Mathematics" + "."
  {
    var student := new Student("Prince", 22, "Python Programming");
    studentLine := student.Introduce();
    var teacher := new Teacher("Mr. Smith", 45, "Mathematics");
    teacherLine := teacher.Introduce();
    ScriptAges();
  }
}
