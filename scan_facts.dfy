// What the scan computes, stated per option without reference to the order
// of the flag tests: presence switches, "last occurrence wins" for the
// values that a later flag replaces, and the accumulation of dump arguments.

module ScanFacts {
  import opened Flags
  import opened Scanner

  // The state after one token, one option at a time, for whichever flag the
  // token is.

  /** -r, -a and -s switch their option on and nothing switches it off. */
  lemma EffectPresence(argv: seq<string>, k: nat, flag: Flag, o: Options)
    requires k < |argv|
    ensures Effect(argv, k, flag, o).autoRun == (o.autoRun || flag == RunFlag)
    ensures Effect(argv, k, flag, o).useAssembler == (o.useAssembler || flag == AssembleFlag)
    ensures Effect(argv, k, flag, o).saveScript == (o.saveScript || flag == ScriptFlag)
  {
  }

  /** Only -o touches the output capture, its target and the default-name switch. */
  lemma EffectCapture(argv: seq<string>, k: nat, flag: Flag, o: Options)
    requires k < |argv|
    ensures Effect(argv, k, flag, o).writeOutput == (o.writeOutput || flag == OutputFlag)
    ensures Effect(argv, k, flag, o).useDefaultOutput == (o.useDefaultOutput && !(flag == OutputFlag && HasOperand(argv, k)))
    ensures Effect(argv, k, flag, o).simOutput == if flag == OutputFlag && HasOperand(argv, k) then argv[k + 1] else o.simOutput
  {
  }

  /** Only -d touches the dump request and its argument. */
  lemma EffectDump(argv: seq<string>, k: nat, flag: Flag, o: Options)
    requires k < |argv|
    ensures Effect(argv, k, flag, o).autoDump == (o.autoDump || flag == DumpFlag)
    ensures Effect(argv, k, flag, o).dumpArg == if flag == DumpFlag then o.dumpArg + Joined(Operands(argv, k + 1)) else o.dumpArg
  {
  }

  /** Only a -c followed by "disable" touches auto-continue. */
  lemma EffectContinue(argv: seq<string>, k: nat, flag: Flag, o: Options)
    requires k < |argv|
    ensures Effect(argv, k, flag, o).autoContinue == (o.autoContinue && !(flag == ContinueFlag && k + 1 < |argv| && argv[k + 1] == "disable"))
  {
  }

  /** Only a -f / --file that is not last touches the input list. */
  lemma EffectFiles(argv: seq<string>, k: nat, flag: Flag, o: Options)
    requires k < |argv|
    ensures Effect(argv, k, flag, o).inputNames == if flag == FileFlag && k + 1 < |argv| then Operands(argv, k + 1) else o.inputNames
  {
  }

  /** Only an -s with an operand touches the script name. */
  lemma EffectScriptName(argv: seq<string>, k: nat, flag: Flag, o: Options)
    requires k < |argv|
    ensures Effect(argv, k, flag, o).outputScriptName == if flag == ScriptFlag && HasOperand(argv, k) then argv[k + 1] else o.outputScriptName
  {
  }

  // The same, for the flag the token at k actually is, in the terms the
  // lemmas below use.

  lemma StepCapture(argv: seq<string>, k: nat, o: Options)
    requires k < |argv|
    ensures Step(argv, k, o).writeOutput == (o.writeOutput || Classify(argv[k]) == OutputFlag)
    ensures Step(argv, k, o).useDefaultOutput == (o.useDefaultOutput && !NamedBy(argv, k, OutputFlag))
    ensures Step(argv, k, o).simOutput == if NamedBy(argv, k, OutputFlag) then argv[k + 1] else o.simOutput
  {
    EffectCapture(argv, k, Classify(argv[k]), o);
  }

  lemma StepDump(argv: seq<string>, k: nat, o: Options)
    requires k < |argv|
    ensures Step(argv, k, o).dumpArg ==
              if Classify(argv[k]) == DumpFlag then o.dumpArg + Joined(Operands(argv, k + 1)) else o.dumpArg
  {
    EffectDump(argv, k, Classify(argv[k]), o);
  }

  lemma StepContinue(argv: seq<string>, k: nat, o: Options)
    requires k < |argv|
    ensures Step(argv, k, o).autoContinue == (o.autoContinue && !DisablesContinue(argv, k))
  {
    EffectContinue(argv, k, Classify(argv[k]), o);
  }

  lemma StepFiles(argv: seq<string>, k: nat, o: Options)
    requires k < |argv|
    ensures Step(argv, k, o).inputNames == if ListsFiles(argv, k) then Operands(argv, k + 1) else o.inputNames
  {
    EffectFiles(argv, k, Classify(argv[k]), o);
  }

  lemma StepScriptName(argv: seq<string>, k: nat, o: Options)
    requires k < |argv|
    ensures Step(argv, k, o).outputScriptName == if NamedBy(argv, k, ScriptFlag) then argv[k + 1] else o.outputScriptName
  {
    EffectScriptName(argv, k, Classify(argv[k]), o);
  }

  /** The -f / --file at k is not the last token, so it replaces the input list. */
  predicate ListsFiles(argv: seq<string>, k: nat)
  {
    k + 1 < |argv| && Classify(argv[k]) == FileFlag
  }

  /** The flag at k is followed by an operand that becomes its value. */
  predicate NamedBy(argv: seq<string>, k: nat, flag: Flag)
  {
    k < |argv| && Classify(argv[k]) == flag && HasOperand(argv, k)
  }

  /** The -c at k is followed by exactly "disable". */
  predicate DisablesContinue(argv: seq<string>, k: nat)
  {
    k + 1 < |argv| && Classify(argv[k]) == ContinueFlag && argv[k + 1] == "disable"
  }

  /** A token that is not flag-shaped (an operand) leaves the state as it was. */
  lemma OperandHasNoEffect(argv: seq<string>, k: nat, o: Options)
    requires k < |argv| && !FlagShaped(argv[k])
    ensures Step(argv, k, o) == o
  {
  }

  /** The five options that a flag switches on and nothing switches off. */
  predicate IsSwitch(f: Flag)
  {
    f == RunFlag || f == AssembleFlag || f == ScriptFlag || f == OutputFlag || f == DumpFlag
  }

  /** The option that the switch flag f turns on. */
  function SwitchOf(o: Options, f: Flag): bool
  {
    match f
    case RunFlag => o.autoRun
    case AssembleFlag => o.useAssembler
    case ScriptFlag => o.saveScript
    case OutputFlag => o.writeOutput
    case DumpFlag => o.autoDump
    case _ => false
  }

  lemma EffectSwitch(argv: seq<string>, k: nat, flag: Flag, o: Options, f: Flag)
    requires k < |argv| && IsSwitch(f)
    ensures SwitchOf(Effect(argv, k, flag, o), f) == (SwitchOf(o, f) || flag == f)
  {
  }


  /**
   * A flag-shaped token longer than two characters whose second character
   * is a short-flag letter passes the validity check but has no effect.
   */
  lemma LongShortTokenIsInert(argv: seq<string>, k: nat, o: Options)
    requires k < |argv| && |argv[k]| > 2 && argv[k][0] == '-'
    requires argv[k][1] in {'h', 'f', 's', 'c', 'd', 'r', 'o', 'a'}
    ensures !InvalidToken(argv[k]) && Step(argv, k, o) == o
  {
    var t := argv[k];
    assert t != "--help" && t != "--run" && t != "--file" && t != "--assemble" by {
      assert "--help"[1] == '-' && "--run"[1] == '-' && "--file"[1] == '-' && "--assemble"[1] == '-';
    }
  }

  /**
   * -r, -a, -s, -o and -d are presence switches: each is on after the first
   * k tokens exactly when that flag occurs among them.
   */
  lemma {:induction false} SwitchIff(argv: seq<string>, k: nat, f: Flag)
    requires k <= |argv| && IsSwitch(f)
    ensures SwitchOf(ScanUpTo(argv, k), f) <==> exists j :: 0 <= j < k && Classify(argv[j]) == f
  {
    if k > 0 {
      SwitchIff(argv, k - 1, f);
      EffectSwitch(argv, k - 1, Classify(argv[k - 1]), ScanUpTo(argv, k - 1), f);
    }
  }

  /**
   * Continuing is on unless some -c is immediately followed by "disable";
   * it is never switched back on.
   */
  lemma {:induction false} AutoContinueIff(argv: seq<string>, k: nat)
    requires k <= |argv|
    ensures ScanUpTo(argv, k).autoContinue <==> forall j :: 0 <= j < k ==> !DisablesContinue(argv, j)
  {
    if k > 0 {
      AutoContinueIff(argv, k - 1);
      StepContinue(argv, k - 1, ScanUpTo(argv, k - 1));
    }
  }

  /** The derived simulator output name is used unless some -o carried a name. */
  lemma {:induction false} DefaultOutputIff(argv: seq<string>, k: nat)
    requires k <= |argv|
    ensures ScanUpTo(argv, k).useDefaultOutput <==> forall j :: 0 <= j < k ==> !NamedBy(argv, j, OutputFlag)
  {
    if k > 0 {
      DefaultOutputIff(argv, k - 1);
      StepCapture(argv, k - 1, ScanUpTo(argv, k - 1));
    }
  }

  /** The -f / --file at i is the last one before k that is not the final token. */
  predicate LastListingBefore(argv: seq<string>, i: nat, k: nat)
  {
    ListsFiles(argv, i) && forall j :: i < j < k ==> !ListsFiles(argv, j)
  }

  /** The -f / --file at i is the last one that is not the final token. */
  predicate LastListing(argv: seq<string>, i: nat)
  {
    LastListingBefore(argv, i, |argv|)
  }

  /**
   * The input list is the operand run of the last -f / --file that is not
   * the final token; an earlier list is discarded, not extended.
   */
  lemma {:induction false} FilesLastWins(argv: seq<string>, i: nat, k: nat)
    requires i < k <= |argv| && LastListingBefore(argv, i, k)
    ensures ScanUpTo(argv, k).inputNames == Operands(argv, i + 1)
  {
    var o := ScanUpTo(argv, k - 1);
    StepFiles(argv, k - 1, o);
    if k - 1 > i {
      assert LastListingBefore(argv, i, k - 1);
      FilesLastWins(argv, i, k - 1);
    }
  }

  /** Without such a -f / --file the input list stays empty. */
  lemma {:induction false} FilesNone(argv: seq<string>, k: nat)
    requires k <= |argv|
    requires forall j :: 0 <= j < k ==> !ListsFiles(argv, j)
    ensures ScanUpTo(argv, k).inputNames == []
  {
    if k > 0 {
      StepFiles(argv, k - 1, ScanUpTo(argv, k - 1));
      FilesNone(argv, k - 1);
    }
  }

  lemma {:induction false} LastListingExists(argv: seq<string>, k: nat)
    requires k <= |argv|
    requires exists j :: 0 <= j < k && ListsFiles(argv, j)
    ensures exists i :: 0 <= i < k && LastListingBefore(argv, i, k)
  {
    if ListsFiles(argv, k - 1) {
      assert LastListingBefore(argv, k - 1, k);
    } else {
      LastListingExists(argv, k - 1);
      var i :| 0 <= i < k - 1 && LastListingBefore(argv, i, k - 1);
      assert LastListingBefore(argv, i, k);
    }
  }

  /**
   * No input file is named exactly when no -f / --file is followed by a
   * token, or the last one that is is followed directly by a flag-shaped
   * token.
   */
  lemma NoFilesIff(argv: seq<string>)
    ensures Scan(argv).inputNames == [] <==>
              forall i :: 0 <= i < |argv| && LastListing(argv, i) ==> FlagShaped(argv[i + 1])
  {
    if exists j :: 0 <= j < |argv| && ListsFiles(argv, j) {
      LastListingExists(argv, |argv|);
      var i :| 0 <= i < |argv| && LastListingBefore(argv, i, |argv|);
      assert LastListing(argv, i);
      assert forall j :: i < j < |argv| ==> !LastListing(argv, j);
      assert forall j :: 0 <= j < i ==> !LastListing(argv, j);
      FilesLastWins(argv, i, |argv|);
      OperandsMaximal(argv, i + 1);
    } else {
      FilesNone(argv, |argv|);
    }
  }

  /**
   * The operand run after position j: no token in it is flag-shaped, and it
   * stops only at a flag-shaped token or the end; it is empty exactly when
   * the token at j is flag-shaped or j is the end.
   */
  lemma OperandsMaximal(argv: seq<string>, j: nat)
    requires j <= |argv|
    ensures forall t :: t in Operands(argv, j) ==> !FlagShaped(t)
    ensures j + |Operands(argv, j)| < |argv| ==> FlagShaped(argv[j + |Operands(argv, j)|])
    ensures Operands(argv, j) == [] <==> j == |argv| || FlagShaped(argv[j])
  {
    var e := RunEnd(argv, j);
    forall t | t in Operands(argv, j) ensures !FlagShaped(t) {
      var i :| 0 <= i < e - j && Operands(argv, j)[i] == t;
      assert argv[j + i] == t;
    }
  }

  /** The script name is the operand of the last -s that has one. */
  lemma {:induction false} ScriptNameLastWins(argv: seq<string>, i: nat, k: nat)
    requires i < k <= |argv| && NamedBy(argv, i, ScriptFlag)
    requires forall j :: i < j < k ==> !NamedBy(argv, j, ScriptFlag)
    ensures ScanUpTo(argv, k).outputScriptName == argv[i + 1]
  {
    StepScriptName(argv, k - 1, ScanUpTo(argv, k - 1));
    if k - 1 > i {
      ScriptNameLastWins(argv, i, k - 1);
    }
  }

  /** Without an -s that has an operand the script keeps its default name. */
  lemma {:induction false} ScriptNameDefault(argv: seq<string>, k: nat)
    requires k <= |argv|
    requires forall j :: 0 <= j < k ==> !NamedBy(argv, j, ScriptFlag)
    ensures ScanUpTo(argv, k).outputScriptName == DefaultScriptName
  {
    if k > 0 {
      StepScriptName(argv, k - 1, ScanUpTo(argv, k - 1));
      ScriptNameDefault(argv, k - 1);
    }
  }

  /** The explicit simulator output name is the operand of the last -o that has one. */
  lemma {:induction false} SimOutputLastWins(argv: seq<string>, i: nat, k: nat)
    requires i < k <= |argv| && NamedBy(argv, i, OutputFlag)
    requires forall j :: i < j < k ==> !NamedBy(argv, j, OutputFlag)
    ensures ScanUpTo(argv, k).simOutput == argv[i + 1]
    ensures !ScanUpTo(argv, k).useDefaultOutput
  {
    StepCapture(argv, k - 1, ScanUpTo(argv, k - 1));
    if k - 1 > i {
      SimOutputLastWins(argv, i, k - 1);
    }
  }

  /** The pieces that the -d flags among the first k tokens contribute, in order. */
  function DumpPieces(argv: seq<string>, k: nat): seq<string>
    requires k <= |argv|
  {
    if k == 0 then []
    else DumpPieces(argv, k - 1) + (if Classify(argv[k - 1]) == DumpFlag then [Joined(Operands(argv, k))] else [])
  }

  /** The strings of s one after the other, with nothing in between. */
  function Concat(s: seq<string>): string
  {
    if s == [] then "" else Concat(s[..|s| - 1]) + s[|s| - 1]
  }

  /**
   * The dump argument is the direct concatenation of what each -d adds: its
   * own operands joined by single spaces, with no separator between
   * successive -d flags; a -d without operands adds nothing.
   */
  lemma {:induction false} DumpArgIsConcat(argv: seq<string>, k: nat)
    requires k <= |argv|
    ensures ScanUpTo(argv, k).dumpArg == Concat(DumpPieces(argv, k))
  {
    if k > 0 {
      DumpArgIsConcat(argv, k - 1);
      StepDump(argv, k - 1, ScanUpTo(argv, k - 1));
      var p := DumpPieces(argv, k - 1);
      if Classify(argv[k - 1]) == DumpFlag {
        assert (p + [Joined(Operands(argv, k))])[..|p|] == p;
      } else {
        assert p + [] == p;
      }
    }
  }

  /** Two -d flags: "-d x -d y" yields the dump argument "xy", with no space. */
  lemma DumpQuirk()
    ensures Scan(["lc3script", "-d", "x", "-d", "y"]).dumpArg == "xy"
  {
    var argv := ["lc3script", "-d", "x", "-d", "y"];
    assert Operands(argv, 2) == ["x"] && Operands(argv, 4) == ["y"];
    assert Classify(argv[0]) == NoFlag && Classify(argv[2]) == NoFlag && Classify(argv[4]) == NoFlag;
    assert DumpPieces(argv, 5) == ["x", "y"];
    DumpArgIsConcat(argv, 5);
    assert ["x", "y"][..1] == ["x"];
  }

}
