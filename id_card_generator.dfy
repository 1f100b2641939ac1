/** The ID-card generator of `projects/id_card_generator.py`: a multi-line
    template with the holder's name, age and role filled in, and the three
    stripped console lines that fill it. */
module IdCardGenerator {
  import opened PyStr

  datatype Option<T> = None | Some(value: T)

  /** What goes on a card. The age is kept as the text that was typed. */
  datatype Card = Card(name: string, age: string, role: string)

  /** The dashed rule: four spaces of indentation and 25 dashes. */
  const Rule := "    -------------------------"
  const Header := "            ID CARD"
  const NameLabel := "    Name : "
  const AgeLabel := "    Age  : "
  const RoleLabel := "    Role : "
  /** The indentation left before the template's closing quotes. */
  const Tail := "    "

  /** The template's lines, top to bottom: an empty first line (the text
      starts with a line break), a rule, the header, a rule, the three
      fields, a rule and the closing indentation. */
  function CardLines(name: string, age: string, role: string): seq<string>
  {
    ["", Rule, Header, Rule, NameLabel + name, AgeLabel + age, RoleLabel + role, Rule, Tail]
  }

  /** `generate_id_card(name, age, role)`: the template's lines joined by line
      breaks, which is how the model writes the script's multi-line f-string.
      It reads nothing but its three arguments. When no field holds a line
      break, the card falls apart into exactly the template's lines again. */
  function GenerateIdCard(name: string, age: string, role: string): (card: string)
    ensures '\n' !in name && '\n' !in age && '\n' !in role ==> SplitLines(card) == CardLines(name, age, role)
  {
    var lines := CardLines(name, age, role);
    if '\n' !in name && '\n' !in age && '\n' !in role then
      LabelledLineIsOneLine(NameLabel, name);
      LabelledLineIsOneLine(AgeLabel, age);
      LabelledLineIsOneLine(RoleLabel, role);
      SplitJoinLines(lines);
      JoinLines(lines)
    else JoinLines(lines)
  }

  /** A card can be printed on one line per field only if no field holds a
      line break. */
  predicate OneLineFields(c: Card)
  {
    '\n' !in c.name && '\n' !in c.age && '\n' !in c.role
  }

  /** Reading a printed card back: the inverse of `GenerateIdCard`. A text
      that does not have the template's nine lines, with the template's fixed
      lines and field labels where they belong, is not a card. */
  function ReadIdCard(text: string): Option<Card>
  {
    var lines := SplitLines(text);
    if |lines| != 9 || lines[0] != "" || lines[1] != Rule || lines[2] != Header
       || lines[3] != Rule || lines[7] != Rule || lines[8] != Tail
    then None
    else if NameLabel <= lines[4] && AgeLabel <= lines[5] && RoleLabel <= lines[6]
    then Some(Card(lines[4][|NameLabel|..], lines[5][|AgeLabel|..], lines[6][|RoleLabel|..]))
    else None
  }

  lemma LabelledLineIsOneLine(tag: string, field: string)
    requires '\n' !in tag && '\n' !in field
    ensures '\n' !in tag + field
  {
  }

  /** Reading a generated card gives back exactly the fields it was made from. */
  lemma {:induction false} ReadGenerated(c: Card)
    requires OneLineFields(c)
    ensures ReadIdCard(GenerateIdCard(c.name, c.age, c.role)) == Some(c)
  {
    var lines := SplitLines(GenerateIdCard(c.name, c.age, c.role));
    assert NameLabel <= lines[4] && AgeLabel <= lines[5] && RoleLabel <= lines[6];
    assert lines[4][|NameLabel|..] == c.name;
    assert lines[5][|AgeLabel|..] == c.age;
    assert lines[6][|RoleLabel|..] == c.role;
  }

  /** Whatever reads as a card is exactly the card generated from the fields
      read, and those fields are one line each. */
  lemma {:induction false} GeneratedRead(text: string)
    requires ReadIdCard(text).Some?
    ensures var c := ReadIdCard(text).value;
      OneLineFields(c) && GenerateIdCard(c.name, c.age, c.role) == text
  {
    var lines := SplitLines(text);
    var c := ReadIdCard(text).value;
    SplitLinesNoBreak(text);
    assert lines[4] == NameLabel + c.name;
    assert lines[5] == AgeLabel + c.age;
    assert lines[6] == RoleLabel + c.role;
    assert '\n' !in lines[4] && '\n' !in lines[5] && '\n' !in lines[6];
    assert OneLineFields(c);
    assert lines == CardLines(c.name, c.age, c.role);
    JoinSplitLines(text);
  }

  /** The script: the three lines read for name, age and role are stripped
      of surrounding whitespace before the card is generated. */
  function CardFromInput(nameLine: string, ageLine: string, roleLine: string): (c: Card)
    ensures NoEdgeSpace(c.name) && NoEdgeSpace(c.age) && NoEdgeSpace(c.role)
    ensures '\n' !in nameLine && '\n' !in ageLine && '\n' !in roleLine ==> OneLineFields(c)
  {
    StripKeepsMiddle(nameLine);
    StripKeepsMiddle(ageLine);
    StripKeepsMiddle(roleLine);
    Card(Strip(nameLine), Strip(ageLine), Strip(roleLine))
  }

  /** A line read from the console holds no line break, and neither does any
      piece of it. */
  lemma StripOneLine(line: string)
    requires '\n' !in line
    ensures '\n' !in Strip(line)
  {
    StripKeepsMiddle(line);
  }

  /** The card the script prints carries the typed name, age and role with
      the surrounding whitespace removed, and nothing else in their place. */
  lemma {:induction false} PrintedCardFields(nameLine: string, ageLine: string, roleLine: string)
    requires '\n' !in nameLine && '\n' !in ageLine && '\n' !in roleLine
    ensures var c := CardFromInput(nameLine, ageLine, roleLine);
      && ReadIdCard(GenerateIdCard(c.name, c.age, c.role)) == Some(Card(Strip(nameLine), Strip(ageLine), Strip(roleLine)))
      && NoEdgeSpace(c.name) && NoEdgeSpace(c.age) && NoEdgeSpace(c.role)
  {
    ReadGenerated(CardFromInput(nameLine, ageLine, roleLine));
  }

  /** Whitespace typed around any of the three fields does not change the
      printed card. */
  lemma PaddedInput(namePre: string, name: string, namePost: string,
                    agePre: string, age: string, agePost: string,
                    rolePre: string, role: string, rolePost: string)
    requires AllSpaces(namePre) && AllSpaces(namePost)
    requires AllSpaces(agePre) && AllSpaces(agePost)
    requires AllSpaces(rolePre) && AllSpaces(rolePost)
    ensures CardFromInput(namePre + name + namePost, agePre + age + agePost, rolePre + role + rolePost)
         == CardFromInput(name, age, role)
  {
    StripPadding(namePre, name, namePost);
    StripPadding(agePre, age, agePost);
    StripPadding(rolePre, role, rolePost);
  }
}
