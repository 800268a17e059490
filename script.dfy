// The run script that lc3script writes for the simulator: a "file <name>"
// line per input, then "c" when auto-continue is on, then "d <args>" when a
// dump was requested.

module Script {
  import opened Scanner

  datatype Option<T> = None | Some(value: T)

  /** One load directive per input name, in the order they were given. */
  function FileLines(names: seq<string>): seq<string>
  {
    seq(|names|, i requires 0 <= i < |names| => "file " + names[i])
  }

  /** The whole script for the given option state. */
  function ScriptLines(o: Options): seq<string>
  {
    FileLines(o.inputNames)
    + (if o.autoContinue then ["c"] else [])
    + (if o.autoDump then ["d " + o.dumpArg] else [])
  }

  /** The loop that writes the script line by line. */
  method WriteScript(o: Options) returns (lines: seq<string>)
    ensures |lines| == |o.inputNames| + (if o.autoContinue then 1 else 0) + (if o.autoDump then 1 else 0)
    ensures forall i :: 0 <= i < |o.inputNames| ==> lines[i] == "file " + o.inputNames[i]
    ensures o.autoContinue ==> lines[|o.inputNames|] == "c"
    ensures o.autoDump ==> lines[|lines| - 1] == "d " + o.dumpArg
    ensures lines == ScriptLines(o)
  {
    lines := [];
    var i := 0;
    while i < |o.inputNames|
      invariant 0 <= i <= |o.inputNames|
      invariant lines == FileLines(o.inputNames[..i])
    {
      lines := lines + ["file " + o.inputNames[i]];
      i := i + 1;
    }
    assert o.inputNames[..i] == o.inputNames;
    if o.autoContinue {
      lines := lines + ["c"];
    }
    if o.autoDump {
      lines := lines + ["d " + o.dumpArg];
    }
  }

  // Reading a script back, as the simulator does, one directive per line.

  /** What a script asks of the simulator. */
  datatype Directives = Directives(files: seq<string>, continues: bool, dump: Option<string>)

  predicate IsFileLine(line: string)
  {
    |line| >= 5 && line[..5] == "file "
  }

  predicate IsDumpLine(line: string)
  {
    |line| >= 2 && line[..2] == "d "
  }

  /** The names of the leading load directives, and the lines after them. */
  function ParseFiles(lines: seq<string>): (seq<string>, seq<string>)
  {
    if |lines| > 0 && IsFileLine(lines[0]) then
      var (names, rest) := ParseFiles(lines[1..]);
      ([lines[0][5..]] + names, rest)
    else
      ([], lines)
  }

  /** The optional "c" and "d" lines that may follow the load directives. */
  function ParseTail(rest: seq<string>): Option<(bool, Option<string>)>
  {
    if rest == [] then Some((false, None))
    else if rest == ["c"] then Some((true, None))
    else if |rest| == 1 && IsDumpLine(rest[0]) then Some((false, Some(rest[0][2..])))
    else if |rest| == 2 && rest[0] == "c" && IsDumpLine(rest[1]) then Some((true, Some(rest[1][2..])))
    else None
  }

  /** A script in the three-group form, or None for any other text. */
  function ParseScript(lines: seq<string>): Option<Directives>
  {
    var (names, rest) := ParseFiles(lines);
    match ParseTail(rest)
    case None => None
    case Some((c, d)) => Some(Directives(names, c, d))
  }

  lemma {:induction false} ParseFileLines(names: seq<string>, tail: seq<string>)
    requires tail == [] || !IsFileLine(tail[0])
    ensures ParseFiles(FileLines(names) + tail) == (names, tail)
    decreases |names|
  {
    if names != [] {
      var lines := FileLines(names) + tail;
      assert lines[0] == "file " + names[0];
      assert lines[0][5..] == names[0];
      assert lines[1..] == FileLines(names[1..]) + tail;
      ParseFileLines(names[1..], tail);
      assert [names[0]] + names[1..] == names;
    } else {
      assert FileLines(names) + tail == tail;
    }
  }

  /**
   * The list of script lines is unambiguous: reading it back yields
   * exactly the input names in order, whether auto-continue is on, and the
   * dump argument when a dump was requested. The written text, with the
   * lines joined by line breaks, is unambiguous only when no name holds a
   * line break.
   */
  lemma ScriptRoundTrip(o: Options)
    ensures ParseScript(ScriptLines(o)) ==
              Some(Directives(o.inputNames, o.autoContinue, if o.autoDump then Some(o.dumpArg) else None))
  {
    var tail := (if o.autoContinue then ["c"] else []) + (if o.autoDump then ["d " + o.dumpArg] else []);
    assert ScriptLines(o) == FileLines(o.inputNames) + tail;
    if tail != [] && |tail[0]| >= 5 {
      assert tail[0][0] == 'c' || tail[0][0] == 'd';
      assert tail[0][..5][0] == tail[0][0];
    }
    ParseFileLines(o.inputNames, tail);
    if o.autoDump {
      var d := "d " + o.dumpArg;
      assert d[..2] == "d " && d[2..] == o.dumpArg;
    }
  }
}
