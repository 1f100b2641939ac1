/** The traffic-light lookup of `projects/traffic_light.py`: a colour, read
    from the console, stripped and lower-cased, is mapped to what the driver
    should do. */
module TrafficLight {
  import opened PyStr

  /** The module-level `signals` list: the colours the lookup knows. */
  const Signals: seq<string> := ["red", "yellow", "green"]

  const InvalidSignal := "Invalid Signal"
  const StopVehicle := "Stop the Vehicle"
  const GetReady := "Get Ready to Move"
  const MoveVehicle := "Move the Vehicle"

  /** `traffic_light(signal)`. Anything outside `Signals` is rejected before the
      colour is looked at, and each known colour has its own message, so every
      input gets exactly one of four messages and different colours never share
      one. */
  function Light(signal: string): (message: string)
    ensures message in {InvalidSignal, StopVehicle, GetReady, MoveVehicle}
    ensures message == InvalidSignal <==> signal !in Signals
    ensures message == StopVehicle <==> signal == "red"
    ensures message == GetReady <==> signal == "yellow"
    ensures message == MoveVehicle <==> signal == "green"
  {
    if signal !in Signals then InvalidSignal
    else if signal == "red" then StopVehicle
    else if signal == "yellow" then GetReady
    else if signal == "green" then MoveVehicle
    else assert false; InvalidSignal
  }

  /** The colours and their messages, written as a table. */
  const Table: map<string, string> :=
    map["red" := StopVehicle, "yellow" := GetReady, "green" := MoveVehicle]

  /** The if/elif chain agrees with the table: a colour in the table gets the
      table's message, and any other string is an invalid signal. */
  lemma LightMatchesTable(signal: string)
    ensures signal in Table ==> Light(signal) == Table[signal]
    ensures signal !in Table ==> Light(signal) == InvalidSignal
    ensures signal in Table <==> signal in Signals
  {
  }

  /** The whole script: the line read is stripped and lower-cased, then looked
      up, so the answer is one of the four messages and is decided by the
      normalised colour alone. */
  function Respond(line: string): (message: string)
    ensures message in {InvalidSignal, StopVehicle, GetReady, MoveVehicle}
    ensures message == InvalidSignal <==> Lower(Strip(line)) !in Signals
    ensures message == StopVehicle <==> Lower(Strip(line)) == "red"
    ensures message == GetReady <==> Lower(Strip(line)) == "yellow"
    ensures message == MoveVehicle <==> Lower(Strip(line)) == "green"
  {
    Light(Lower(Strip(line)))
  }

  /** Lower-casing twice is lower-casing once. */
  lemma LowerIdempotent(s: string)
    ensures Lower(Lower(s)) == Lower(s)
  {
  }

  /** Lower-casing changes only capital letters, none of which is whitespace. */
  lemma LowerCharKeepsSpace(c: char)
    ensures IsSpace(LowerChar(c)) == IsSpace(c)
  {
  }

  /** Lower-casing a piece of a string is the same piece of the lower-cased string. */
  lemma LowerSlice(s: string, i: nat, j: nat)
    requires i <= j <= |s|
    ensures Lower(s[i..j]) == Lower(s)[i..j]
  {
  }

  /** Lower-casing keeps the leading whitespace where it was. */
  lemma TrimStartLower(s: string)
    ensures TrimStart(Lower(s)) == Lower(TrimStart(s))
  {
    var n := LeadingSpaces(s);
    var t := Lower(s);
    LeadingSpacesStop(s);
    forall k | 0 <= k < n ensures IsSpace(t[k]) {
      LowerCharKeepsSpace(s[k]);
    }
    if n < |s| {
      LowerCharKeepsSpace(s[n]);
    }
    LeadingSpacesUnique(t, n);
    LowerSlice(s, n, |s|);
    assert s[n..|s|] == s[n..];
    assert t[n..|s|] == t[n..];
  }

  /** Lower-casing keeps the trailing whitespace where it was. */
  lemma TrimEndLower(s: string)
    ensures TrimEnd(Lower(s)) == Lower(TrimEnd(s))
  {
    var n := TrailingSpaces(s);
    var t := Lower(s);
    TrailingSpacesStop(s);
    forall k | |s| - n <= k < |s| ensures IsSpace(t[k]) {
      LowerCharKeepsSpace(s[k]);
    }
    if n < |s| {
      LowerCharKeepsSpace(s[|s| - n - 1]);
    }
    TrailingSpacesUnique(t, n);
    LowerSlice(s, 0, |s| - n);
    assert s[0..|s| - n] == s[..|s| - n];
    assert t[0..|s| - n] == t[..|s| - n];
  }

  /** Stripping and lower-casing can be done in either order. */
  lemma StripLower(s: string)
    ensures Strip(Lower(s)) == Lower(Strip(s))
  {
    TrimStartLower(s);
    TrimEndLower(TrimStart(s));
  }

  /** The script's answer ignores letter case: typing the colour in capitals,
      or in any mix of cases, gives the same message. */
  lemma RespondIgnoresCase(line: string)
    ensures Respond(Lower(line)) == Respond(line)
  {
    StripLower(line);
    LowerIdempotent(Strip(line));
  }

  /** The script's answer ignores whitespace around the colour. */
  lemma RespondIgnoresPadding(pre: string, colour: string, post: string)
    requires AllSpaces(pre) && AllSpaces(post)
    ensures Respond(pre + colour + post) == Respond(colour)
  {
    StripPadding(pre, colour, post);
  }

  /** `"  RED "` is read as red. */
  lemma PaddedCapitalRed()
    ensures Respond("  RED ") == StopVehicle
  {
    assert "  RED " == "  " + "RED" + " ";
    RespondIgnoresPadding("  ", "RED", " ");
    StripNoEdgeSpace("RED");
    assert Lower("RED") == "red";
  }
}
