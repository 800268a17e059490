// The argument scanner of lc3script: one left-to-right pass over the whole
// argument vector (the program name included), updating the option state
// token by token and recording the positions of invalid flag-shaped tokens.

module Scanner {
  import opened Flags

  const DefaultScriptName: string := ".run_script"
  const DefaultSimOutput: string := "lc3sim.out"
  const DefaultDumpArg: string := ""

  /** The on/off settings of a run. */
  datatype Switch =
    | UseDefaultOutput  // derive the simulator output name from the last input
    | AutoContinue      // let the simulator continue after loading
    | AutoDump          // ask the simulator for a dump
    | AutoRun           // launch the simulator
    | WriteOutput       // capture the simulator's output in a file
    | UseAssembler      // assemble every input first
    | SaveScript        // keep the script after the simulator has run

  /**
   * The option state that the scan accumulates: the four values, and the
   * switches that are on.
   */
  datatype Options = Options(
    inputNames: seq<string>,
    outputScriptName: string,
    simOutput: string,
    dumpArg: string,
    on: set<Switch>)
  {
    const useDefaultOutput: bool := UseDefaultOutput in on
    const autoContinue: bool := AutoContinue in on
    const autoDump: bool := AutoDump in on
    const autoRun: bool := AutoRun in on
    const writeOutput: bool := WriteOutput in on
    const useAssembler: bool := UseAssembler in on
    const saveScript: bool := SaveScript in on
  }

  /** The state before the first token is looked at. */
  const Defaults: Options := Options(
    inputNames := [],
    outputScriptName := DefaultScriptName,
    simOutput := DefaultSimOutput,
    dumpArg := DefaultDumpArg,
    on := {UseDefaultOutput, AutoContinue})

  /**
   * The end of the run of operands that starts at j: the first position at
   * or after j that holds a flag-shaped token, or the end of argv.
   */
  function RunEnd(argv: seq<string>, j: nat): (e: nat)
    requires j <= |argv|
    ensures j <= e <= |argv|
    ensures forall i :: j <= i < e ==> !FlagShaped(argv[i])
    ensures e < |argv| ==> FlagShaped(argv[e])
    decreases |argv| - j
  {
    if j == |argv| || FlagShaped(argv[j]) then j else RunEnd(argv, j + 1)
  }

  /** The maximal run of non-flag-shaped tokens starting at j. */
  function Operands(argv: seq<string>, j: nat): seq<string>
    requires j <= |argv|
  {
    argv[j..RunEnd(argv, j)]
  }

  /** Whether the token at k is followed by a token that is not flag-shaped. */
  predicate HasOperand(argv: seq<string>, k: nat)
  {
    k + 1 < |argv| && !FlagShaped(argv[k + 1])
  }

  /** The words of s separated by single spaces. */
  function Joined(s: seq<string>): string
    decreases |s|
  {
    if |s| == 0 then ""
    else if |s| == 1 then s[0]
    else Joined(s[..|s| - 1]) + " " + s[|s| - 1]
  }

  /**
   * The effect of the token at k on the option state, given the flag it is.
   * The scanner tests the spellings of every flag one after the other, but a
   * token is at most one flag (Flags.ClassifyExact), so only the test of its
   * own flag can fire:
   *   -r / --run and -a / --assemble switch their option on;
   *   -f / --file replaces the input list with its operand run, unless it
   *     is the last token;
   *   -s keeps the script, renaming it when an operand follows;
   *   -c clears auto-continue only when "disable" follows;
   *   -d requests the dump and appends its operands, joined by single
   *     spaces, to the dump argument;
   *   -o captures the simulator output, to the operand's name when one
   *     follows.
   * The help flag and the validity check are handled by the scan loop.
   */
  function Effect(argv: seq<string>, k: nat, flag: Flag, o: Options): Options
    requires k < |argv|
  {
    match flag
    case RunFlag => o.(on := o.on + {AutoRun})
    case FileFlag =>
      if k + 1 < |argv| then o.(inputNames := Operands(argv, k + 1)) else o
    case ScriptFlag =>
      o.(on := o.on + {SaveScript},
         outputScriptName := if HasOperand(argv, k) then argv[k + 1] else o.outputScriptName)
    case ContinueFlag =>
      if k + 1 < |argv| && argv[k + 1] == "disable" then o.(on := o.on - {AutoContinue}) else o
    case DumpFlag =>
      o.(on := o.on + {AutoDump},
         dumpArg := if k + 1 < |argv| then o.dumpArg + Joined(Operands(argv, k + 1)) else o.dumpArg)
    case OutputFlag =>
      if HasOperand(argv, k) then o.(on := o.on + {WriteOutput} - {UseDefaultOutput}, simOutput := argv[k + 1])
      else o.(on := o.on + {WriteOutput})
    case AssembleFlag => o.(on := o.on + {UseAssembler})
    case _ => o
  }

  /** The effect of the token at k on the option state. */
  function Step(argv: seq<string>, k: nat, o: Options): Options
    requires k < |argv|
  {
    Effect(argv, k, Classify(argv[k]), o)
  }

  /** The option state after the first k tokens. */
  function ScanUpTo(argv: seq<string>, k: nat): Options
    requires k <= |argv|
  {
    if k == 0 then Defaults else Step(argv, k - 1, ScanUpTo(argv, k - 1))
  }

  /** The option state after the whole argument vector. */
  function Scan(argv: seq<string>): Options
  {
    ScanUpTo(argv, |argv|)
  }

  /**
   * The positions, among the first k, that the scanner records as invalid:
   * in increasing order, and exactly those that hold an invalid token.
   */
  function InvalidUpTo(argv: seq<string>, k: nat): (locs: seq<nat>)
    requires k <= |argv|
    ensures forall i :: 0 <= i < |locs| ==> locs[i] < k
    ensures forall i, j :: 0 <= i < j < |locs| ==> locs[i] < locs[j]
    ensures forall j :: 0 <= j < k ==> (j in locs <==> InvalidToken(argv[j]))
  {
    if k == 0 then []
    else InvalidUpTo(argv, k - 1) + (if InvalidToken(argv[k - 1]) then [k - 1] else [])
  }

  /** The lookahead loop that finds where a run of operands ends. */
  method FindRunEnd(argv: seq<string>, j: nat) returns (e: nat)
    requires j <= |argv|
    ensures e == RunEnd(argv, j)
  {
    e := j;
    while e < |argv| && !FlagShaped(argv[e])
      invariant j <= e <= |argv|
      invariant forall i :: j <= i < e ==> !FlagShaped(argv[i])
      decreases |argv| - e
    {
      e := e + 1;
    }
  }

  /** The copy loop that collects argv[from..to] as the input names. */
  method CollectNames(argv: seq<string>, from: nat, to: nat) returns (names: seq<string>)
    requires from <= to <= |argv|
    ensures names == argv[from..to]
  {
    var fileCount := to - from;
    names := [];
    var i := 0;
    while i < fileCount
      invariant 0 <= i <= fileCount
      invariant names == argv[from..from + i]
    {
      names := names + [argv[i + from]];
      i := i + 1;
    }
  }

  /** Appends the operands argv[from..to] to dump, separated by single spaces. */
  method AppendDump(argv: seq<string>, from: nat, to: nat, dump: string) returns (r: string)
    requires from <= to <= |argv|
    ensures r == dump + Joined(argv[from..to])
  {
    var n := to - from;
    ghost var run := argv[from..to];
    r := dump;
    var i := 0;
    while i < n
      invariant 0 <= i <= n
      invariant r == dump + Joined(run[..i]) + (if 0 < i < n then " " else "")
    {
      assert run[..i + 1][..i] == run[..i];
      assert run[i] == argv[from + i];
      assert Joined(run[..i + 1]) == if i == 0 then run[i] else Joined(run[..i]) + " " + run[i];
      r := r + argv[from + i];
      assert r == dump + Joined(run[..i + 1]);
      if i < n - 1 {
        r := r + " ";
      }
      i := i + 1;
    }
    assert run[..n] == run;
  }

  /** The -f / --file test with its lookahead and copy loops. */
  method ApplyFile(argv: seq<string>, k: nat, o: Options) returns (r: Options)
    requires k < |argv|
    ensures r == if Classify(argv[k]) == FileFlag then Step(argv, k, o) else o
  {
    r := o;
    if Classify(argv[k]) == FileFlag {
      if k != |argv| - 1 {
        var e := FindRunEnd(argv, k + 1);
        var names := CollectNames(argv, k + 1, e);
        r := r.(inputNames := names);
      }
    }
  }

  /** The -d test with its lookahead and append loops. */
  method ApplyDump(argv: seq<string>, k: nat, o: Options) returns (r: Options)
    requires k < |argv|
    ensures r == if Classify(argv[k]) == DumpFlag then Step(argv, k, o) else o
  {
    r := o;
    if Classify(argv[k]) == DumpFlag {
      r := r.(on := r.on + {AutoDump});
      if k != |argv| - 1 {
        var e := FindRunEnd(argv, k + 1);
        var dump := AppendDump(argv, k + 1, e, r.dumpArg);
        r := r.(dumpArg := dump);
      }
    }
  }

  /** The flag tests of one iteration of the scan loop. */
  method ApplyToken(argv: seq<string>, k: nat, o: Options) returns (r: Options)
    requires k < |argv|
    ensures r == Step(argv, k, o)
  {
    var flag := Classify(argv[k]);
    r := o;
    if flag == RunFlag {
      r := r.(on := r.on + {AutoRun});
    }
    r := ApplyFile(argv, k, r);
    if flag == ScriptFlag {
      r := r.(on := r.on + {SaveScript});
      if k != |argv| - 1 && !FlagShaped(argv[k + 1]) {
        r := r.(outputScriptName := argv[k + 1]);
      }
    }
    if flag == ContinueFlag {
      if k != |argv| - 1 {
        if argv[k + 1] == "disable" {
          r := r.(on := r.on - {AutoContinue});
        }
      }
    }
    r := ApplyDump(argv, k, r);
    if flag == OutputFlag {
      r := r.(on := r.on + {WriteOutput});
      if k != |argv| - 1 && !FlagShaped(argv[k + 1]) {
        r := r.(simOutput := argv[k + 1], on := r.on - {UseDefaultOutput});
      }
    }
    if flag == AssembleFlag {
      r := r.(on := r.on + {UseAssembler});
    }
  }

  /** The validity check of one iteration of the scan loop. */
  method RecordInvalid(argv: seq<string>, k: nat, invalid: seq<nat>) returns (r: seq<nat>)
    requires k < |argv| && invalid == InvalidUpTo(argv, k)
    ensures r == InvalidUpTo(argv, k + 1)
  {
    r := invalid;
    if FlagShaped(argv[k]) {
      var bad := CheckToken(argv[k]);
      if bad {
        r := r + [k];
      }
    }
  }

  /**
   * The scan loop. It stops at the first help token; otherwise it visits
   * every token and yields the final option state and the invalid positions.
   */
  method ScanArgs(argv: seq<string>) returns (help: bool, o: Options, invalid: seq<nat>)
    ensures help <==> exists j :: 0 <= j < |argv| && Classify(argv[j]) == HelpFlag
    ensures !help ==> o == Scan(argv) && invalid == InvalidUpTo(argv, |argv|)
  {
    o := Defaults;
    invalid := [];
    var k := 0;
    while k < |argv|
      invariant 0 <= k <= |argv|
      invariant forall j :: 0 <= j < k ==> Classify(argv[j]) != HelpFlag
      invariant o == ScanUpTo(argv, k)
      invariant invalid == InvalidUpTo(argv, k)
    {
      if Classify(argv[k]) == HelpFlag {
        help := true;
        return;
      }
      o := ApplyToken(argv, k, o);
      assert o == ScanUpTo(argv, k + 1);
      invalid := RecordInvalid(argv, k, invalid);
      k := k + 1;
    }
    help := false;
  }
}
