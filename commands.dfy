// The command lines lc3script hands to the shell: one assembler call per
// input file, the simulator call with its optional output redirection, and
// the removal of the script afterwards. Running them is the caller's part.

module Commands {
  import opened Scanner

  const Assembler: string := "lc3as "

  /** The assembler call for one input; no extension is added to the name. */
  function AsmCommand(name: string): string
  {
    Assembler + name
  }

  /** The assembler calls for all inputs, in input order. */
  function AsmCommands(names: seq<string>): seq<string>
  {
    seq(|names|, i requires 0 <= i < |names| => AsmCommand(names[i]))
  }

  /** Whether any of the commands exits with a non-zero status. */
  predicate AnyFails(cmds: seq<string>, status: string -> int)
  {
    exists i :: 0 <= i < |cmds| && status(cmds[i]) != 0
  }

  /**
   * The assembler loop: every input is assembled, in order, even after one
   * has failed; the run fails when any of them did.
   */
  method Assemble(names: seq<string>, status: string -> int) returns (cmds: seq<string>, failed: bool)
    ensures |cmds| == |names|
    ensures forall i :: 0 <= i < |names| ==> cmds[i] == AsmCommand(names[i])
    ensures failed <==> exists i :: 0 <= i < |names| && status(AsmCommand(names[i])) != 0
    ensures cmds == AsmCommands(names)
  {
    cmds := [];
    failed := false;
    var i := 0;
    while i < |names|
      invariant 0 <= i <= |names|
      invariant cmds == AsmCommands(names[..i])
      invariant failed <==> exists j :: 0 <= j < i && status(AsmCommand(names[j])) != 0
    {
      var assembler := Assembler;
      assembler := assembler + names[i];
      cmds := cmds + [assembler];
      if status(assembler) != 0 {
        failed := true;
      }
      i := i + 1;
    }
    assert names[..i] == names;
  }

  /**
   * The simulator's output file: the name given to -o, or else the last
   * input name with ".out" appended.
   */
  function SimOutputName(o: Options): string
    requires o.inputNames != []
  {
    if o.useDefaultOutput then o.inputNames[|o.inputNames| - 1] + ".out" else o.simOutput
  }

  /** The simulator call: run the script, redirecting output when -o was given. */
  function LaunchCommand(o: Options): string
    requires o.inputNames != []
  {
    if o.writeOutput then "lc3sim " + "-s " + o.outputScriptName + " > " + SimOutputName(o)
    else "lc3sim " + "-s " + o.outputScriptName
  }

  /** The string building of the simulator call, piece by piece. */
  method BuildLaunch(o: Options) returns (launch: string)
    requires o.inputNames != []
    ensures launch == LaunchCommand(o)
  {
    var simOutput := o.simOutput;
    if o.useDefaultOutput {
      simOutput := o.inputNames[|o.inputNames| - 1] + ".out";
    }
    launch := "lc3sim ";
    launch := launch + "-s ";
    launch := launch + o.outputScriptName;
    if o.writeOutput {
      launch := launch + " > ";
      launch := launch + simOutput;
    }
  }

  /** The call that deletes the script. */
  function RemoveCommand(o: Options): string
  {
    "rm " + o.outputScriptName
  }
}
