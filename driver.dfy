// The whole run of lc3script: the scan, the checks that end the run early
// with their exit codes, the optional assembly, the script and the commands
// issued afterwards. Shell calls are not made here: the assembler's exit
// status is a parameter, and the simulator and removal calls are returned.

module Driver {
  import opened Flags
  import opened Scanner
  import opened ScanFacts
  import opened Script
  import opened Commands

  /** How a run ends. */
  datatype Outcome =
    | NoArgs                                   // no argument after the program name
    | Help                                     // -h or --help somewhere
    | Invalid(tokens: seq<string>)             // the invalid tokens, in order
    | NoFiles                                  // no input file was named
    | AssemblerFailed(attempted: seq<string>)  // every assembler call made
    | Done(assembled: seq<string>, scriptName: string, script: seq<string>, commands: seq<string>)

  function ExitCode(out: Outcome): int
  {
    match out
    case NoArgs => 1
    case Help => 1
    case Invalid(_) => 2
    case NoFiles => 3
    case AssemblerFailed(_) => 4
    case Done(_, _, _, _) => 0
  }

  /** The tokens at the given positions. */
  function TokensAt(argv: seq<string>, locs: seq<nat>): seq<string>
    requires forall i :: 0 <= i < |locs| ==> locs[i] < |argv|
  {
    seq(|locs|, i requires 0 <= i < |locs| => argv[locs[i]])
  }

  ghost predicate HelpRequested(argv: seq<string>)
  {
    exists j :: 0 <= j < |argv| && Classify(argv[j]) == HelpFlag
  }

  /** The shell calls made after the script is written. */
  function AfterScript(o: Options): seq<string>
    requires o.inputNames != []
  {
    (if o.autoRun then [LaunchCommand(o)] else [])
    + (if !o.saveScript && o.autoRun then [RemoveCommand(o)] else [])
  }

  /**
   * What follows a successful check: the optional assembly, then the script
   * and the calls made after it.
   */
  function Finish(o: Options, status: string -> int): Outcome
    requires o.inputNames != []
  {
    var assembled := if o.useAssembler then AsmCommands(o.inputNames) else [];
    if AnyFails(assembled, status) then AssemblerFailed(assembled)
    else Done(assembled, o.outputScriptName, ScriptLines(o), AfterScript(o))
  }

  /**
   * The checks in the order the program makes them, given what the scan
   * found: whether it met a help token, the option state and the invalid
   * positions.
   */
  function Decide(argv: seq<string>, help: bool, o: Options, bad: seq<nat>, status: string -> int): Outcome
    requires forall i :: 0 <= i < |bad| ==> bad[i] < |argv|
  {
    if |argv| == 1 then NoArgs
    else if help then Help
    else if bad != [] then Invalid(TokensAt(argv, bad))
    else if o.inputNames == [] then NoFiles
    else Finish(o, status)
  }

  /**
   * The run: argv holds the program name first; status gives the exit
   * status of each assembler call.
   */
  ghost function Expected(argv: seq<string>, status: string -> int): Outcome
  {
    Decide(argv, HelpRequested(argv), Scan(argv), InvalidUpTo(argv, |argv|), status)
  }

  /** The body of the program, in the order it does things. */
  method Run(argv: seq<string>, status: string -> int) returns (out: Outcome)
    ensures out == Expected(argv, status)
  {
    if |argv| == 1 {
      return NoArgs;
    }
    var help, o, invalid := ScanArgs(argv);
    if help {
      return Help;
    }
    if |invalid| > 0 {
      var tokens := ReportInvalid(argv, invalid);
      return Invalid(tokens);
    }
    if |o.inputNames| == 0 {
      return NoFiles;
    }
    out := RunChecked(o, status);
  }

  /** The loop that lists the invalid tokens by their recorded positions. */
  method ReportInvalid(argv: seq<string>, locs: seq<nat>) returns (tokens: seq<string>)
    requires forall i :: 0 <= i < |locs| ==> locs[i] < |argv|
    ensures |tokens| == |locs|
    ensures forall i :: 0 <= i < |locs| ==> tokens[i] == argv[locs[i]]
  {
    tokens := [];
    var i := 0;
    while i < |locs|
      invariant 0 <= i <= |locs|
      invariant |tokens| == i
      invariant forall j :: 0 <= j < i ==> tokens[j] == argv[locs[j]]
    {
      tokens := tokens + [argv[locs[i]]];
      i := i + 1;
    }
  }

  /** The simulator call when -r was given, then the removal unless -s was. */
  method CallsAfterScript(o: Options) returns (commands: seq<string>)
    requires o.inputNames != []
    ensures commands == AfterScript(o)
  {
    commands := [];
    if o.autoRun {
      var launch := BuildLaunch(o);
      commands := commands + [launch];
    }
    if !o.saveScript && o.autoRun {
      commands := commands + [RemoveCommand(o)];
    }
  }

  /** Assembly, script and the calls after it, once the checks have passed. */
  method RunChecked(o: Options, status: string -> int) returns (out: Outcome)
    requires o.inputNames != []
    ensures out == Finish(o, status)
  {
    var assembled: seq<string> := [];
    if o.useAssembler {
      var failed;
      assembled, failed := Assemble(o.inputNames, status);
      if failed {
        return AssemblerFailed(assembled);
      }
    }
    var script := WriteScript(o);
    var commands := CallsAfterScript(o);
    out := Done(assembled, o.outputScriptName, script, commands);
  }

  /** The exit code of each kind of ending, for any scan result. */
  lemma DecideExitCode(argv: seq<string>, help: bool, o: Options, bad: seq<nat>, status: string -> int)
    requires forall i :: 0 <= i < |bad| ==> bad[i] < |argv|
    ensures var code := ExitCode(Decide(argv, help, o, bad, status));
      && (code == 1 <==> |argv| == 1 || help)
      && (code == 2 <==> |argv| != 1 && !help && bad != [])
      && (code == 3 <==> |argv| != 1 && !help && bad == [] && o.inputNames == [])
      && (code == 4 <==> |argv| != 1 && !help && bad == [] && o.inputNames != [] && o.useAssembler
                         && exists i :: 0 <= i < |o.inputNames| && status(AsmCommand(o.inputNames[i])) != 0)
      && (code == 0 || code == 1 || code == 2 || code == 3 || code == 4)
  {
  }

  /** Some token is invalid exactly when the scanner recorded an invalid position. */
  lemma AnyInvalidIff(argv: seq<string>)
    ensures InvalidUpTo(argv, |argv|) != [] <==> exists k :: 0 <= k < |argv| && InvalidToken(argv[k])
  {
    var bad := InvalidUpTo(argv, |argv|);
    if bad != [] {
      assert bad[0] in bad;
    }
  }

  /**
   * The exit code, decided in a fixed order: no arguments or any help token
   * give 1 (help wins over invalid tokens anywhere), then any invalid token
   * gives 2 (before the missing-file check), then no input files give 3,
   * then a failing assembler call gives 4, and otherwise the run gives 0.
   */
  lemma ExitCodeOrder(argv: seq<string>, status: string -> int)
    ensures var code := ExitCode(Expected(argv, status));
      var o := Scan(argv);
      var anyInvalid := exists k :: 0 <= k < |argv| && InvalidToken(argv[k]);
      && (code == 1 <==> |argv| == 1 || HelpRequested(argv))
      && (code == 2 <==> |argv| != 1 && !HelpRequested(argv) && anyInvalid)
      && (code == 3 <==> |argv| != 1 && !HelpRequested(argv) && !anyInvalid && o.inputNames == [])
      && (code == 4 <==> |argv| != 1 && !HelpRequested(argv) && !anyInvalid
                         && o.inputNames != [] && o.useAssembler
                         && exists i :: 0 <= i < |o.inputNames| && status(AsmCommand(o.inputNames[i])) != 0)
      && (code == 0 || code == 1 || code == 2 || code == 3 || code == 4)
  {
    AnyInvalidIff(argv);
    DecideExitCode(argv, HelpRequested(argv), Scan(argv), InvalidUpTo(argv, |argv|), status);
  }

  /**
   * The invalid tokens are reported in the order they appear, every one of
   * them, and only flag-shaped ones.
   */
  lemma InvalidReport(argv: seq<string>, status: string -> int)
    requires Expected(argv, status).Invalid?
    ensures var tokens := Expected(argv, status).tokens;
      && (forall t :: t in tokens ==> FlagShaped(t) && InvalidToken(t))
      && (forall k :: 0 <= k < |argv| && InvalidToken(argv[k]) ==> argv[k] in tokens)
      && exists locs: seq<nat> ::
           && |locs| == |tokens|
           && (forall i :: 0 <= i < |locs| ==> locs[i] < |argv| && tokens[i] == argv[locs[i]])
           && (forall i, j :: 0 <= i < j < |locs| ==> locs[i] < locs[j])
           && (forall k :: 0 <= k < |argv| ==> (k in locs <==> InvalidToken(argv[k])))
  {
    var locs := InvalidUpTo(argv, |argv|);
    assert Expected(argv, status).tokens == TokensAt(argv, locs);
    ReportedTokens(argv, locs);
  }

  /** The tokens at exactly the invalid positions are the invalid tokens. */
  lemma ReportedTokens(argv: seq<string>, locs: seq<nat>)
    requires forall i :: 0 <= i < |locs| ==> locs[i] < |argv|
    requires forall k :: 0 <= k < |argv| ==> (k in locs <==> InvalidToken(argv[k]))
    ensures forall t :: t in TokensAt(argv, locs) ==> FlagShaped(t) && InvalidToken(t)
    ensures forall k :: 0 <= k < |argv| && InvalidToken(argv[k]) ==> argv[k] in TokensAt(argv, locs)
  {
    var tokens := TokensAt(argv, locs);
    forall t | t in tokens ensures FlagShaped(t) && InvalidToken(t) {
      var i :| 0 <= i < |tokens| && tokens[i] == t;
      assert locs[i] in locs;
    }
    forall k | 0 <= k < |argv| && InvalidToken(argv[k]) ensures argv[k] in tokens {
      var i :| 0 <= i < |locs| && locs[i] == k;
      assert tokens[i] == argv[k];
    }
  }


  /** On a failed assembly every input was attempted, in order, before the run stopped. */
  lemma AssemblerAttemptsAll(argv: seq<string>, status: string -> int)
    requires Expected(argv, status).AssemblerFailed?
    ensures var names := Scan(argv).inputNames;
      var attempted := Expected(argv, status).attempted;
      && Scan(argv).useAssembler
      && |attempted| == |names| > 0
      && (forall i :: 0 <= i < |names| ==> attempted[i] == AsmCommand(names[i]))
  {
  }

  /** At most the launch and then the removal, each under its switches. */
  lemma AfterScriptShape(o: Options)
    requires o.inputNames != []
    ensures var calls := AfterScript(o);
      && |calls| <= 2
      && (calls != [] <==> o.autoRun)
      && (o.autoRun ==> calls[0] == LaunchCommand(o))
      && (|calls| == 2 <==> o.autoRun && !o.saveScript)
      && (|calls| == 2 ==> calls[1] == RemoveCommand(o))
  {
  }

  /**
   * After the script is written: the simulator is launched exactly when -r
   * or --run was given, and the script is removed afterwards exactly when,
   * in addition, no -s was given.
   */
  lemma LaunchAndCleanup(argv: seq<string>, status: string -> int)
    requires Expected(argv, status).Done?
    ensures var commands := Expected(argv, status).commands;
      var run := exists j :: 0 <= j < |argv| && Classify(argv[j]) == RunFlag;
      var keep := exists j :: 0 <= j < |argv| && Classify(argv[j]) == ScriptFlag;
      && |commands| <= 2
      && (commands != [] <==> run)
      && (run ==> commands[0] == LaunchCommand(Scan(argv)))
      && (|commands| == 2 <==> run && !keep)
      && (|commands| == 2 ==> commands[1] == "rm " + Expected(argv, status).scriptName)
  {
    var o := Scan(argv);
    assert Expected(argv, status).commands == AfterScript(o);
    assert Expected(argv, status).scriptName == o.outputScriptName;
    AfterScriptShape(o);
    SwitchIff(argv, |argv|, RunFlag);
    SwitchIff(argv, |argv|, ScriptFlag);
  }

  /**
   * The simulator's output goes to the last input name plus ".out", unless
   * some -o carried a name, in which case it goes to the last such name.
   */
  lemma SimOutputTarget(argv: seq<string>, status: string -> int)
    requires Expected(argv, status).Done?
    ensures var o := Scan(argv);
      && ((forall j :: 0 <= j < |argv| ==> !NamedBy(argv, j, OutputFlag)) ==>
            SimOutputName(o) == o.inputNames[|o.inputNames| - 1] + ".out")
      && (forall i :: 0 <= i < |argv| && NamedBy(argv, i, OutputFlag)
            && (forall j :: i < j < |argv| ==> !NamedBy(argv, j, OutputFlag))
            ==> SimOutputName(o) == argv[i + 1])
  {
    DefaultOutputIff(argv, |argv|);
    forall i | 0 <= i < |argv| && NamedBy(argv, i, OutputFlag)
        && (forall j :: i < j < |argv| ==> !NamedBy(argv, j, OutputFlag))
      ensures SimOutputName(Scan(argv)) == argv[i + 1]
    {
      SimOutputLastWins(argv, i, |argv|);
    }
  }
}
