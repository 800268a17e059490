// The flag catalog of lc3script: the two tables the validity check walks,
// the token shapes the scanner reacts to, and the validity check itself.

module Flags {

  /** The table of accepted second characters of a short flag. */
  const Arguments: seq<char> := ['-', 'h', 'f', 's', 'c', 'd', 'r', 'o', 'a']

  /** The table of accepted long flags. */
  const Commands: seq<string> := ["--help", "--run", "--file", "--assemble"]

  /** A token is flag-shaped when its first character is '-'. */
  predicate FlagShaped(t: string)
  {
    |t| > 0 && t[0] == '-'
  }

  /** The flags the scanner reacts to; every other token is NoFlag. */
  datatype Flag =
    | HelpFlag | RunFlag | FileFlag | ScriptFlag | ContinueFlag
    | DumpFlag | OutputFlag | AssembleFlag | NoFlag

  /** Which flag a token is, by exact comparison with its spellings. */
  function Classify(t: string): Flag
  {
    if |t| == 2 && t[0] == '-' then
      match t[1]
      case 'h' => HelpFlag
      case 'r' => RunFlag
      case 'f' => FileFlag
      case 's' => ScriptFlag
      case 'c' => ContinueFlag
      case 'd' => DumpFlag
      case 'o' => OutputFlag
      case 'a' => AssembleFlag
      case _ => NoFlag
    else if t == "--help" then HelpFlag
    else if t == "--run" then RunFlag
    else if t == "--file" then FileFlag
    else if t == "--assemble" then AssembleFlag
    else NoFlag
  }

  /**
   * Each flag is recognised by exactly its spellings, so testing the
   * spellings one after the other, as the scanner does, is the same as
   * classifying the token once.
   */
  lemma ClassifyExact(t: string)
    ensures Classify(t) == HelpFlag <==> t == "-h" || t == "--help"
    ensures Classify(t) == RunFlag <==> t == "--run" || t == "-r"
    ensures Classify(t) == FileFlag <==> t == "--file" || t == "-f"
    ensures Classify(t) == ScriptFlag <==> t == "-s"
    ensures Classify(t) == ContinueFlag <==> t == "-c"
    ensures Classify(t) == DumpFlag <==> t == "-d"
    ensures Classify(t) == OutputFlag <==> t == "-o"
    ensures Classify(t) == AssembleFlag <==> t == "--assemble" || t == "-a"
  {
  }

  /** Every recognised flag is flag-shaped and passes the validity check. */
  lemma ClassifiedAreValid(t: string)
    requires Classify(t) != NoFlag
    ensures FlagShaped(t) && !InvalidToken(t)
  {
  }

  /**
   * The tokens the scanner reports as invalid, stated without the tables:
   * a flag-shaped token that either starts with "--" and is none of the
   * four long flags, or whose second character (absent for "-") is none of
   * the eight short-flag letters. Nothing else about the token matters, so
   * "-rx" passes while "-" and "--" do not.
   */
  predicate InvalidToken(t: string)
  {
    FlagShaped(t) &&
    if |t| >= 2 && t[1] == '-' then
      t != "--help" && t != "--run" && t != "--file" && t != "--assemble"
    else
      |t| < 2 || t[1] !in {'h', 'f', 's', 'c', 'd', 'r', 'o', 'a'}
  }

  /**
   * The validity check run on every flag-shaped token: a long token is
   * looked up in Commands, any other in Arguments by its second character.
   */
  method CheckToken(t: string) returns (invalid: bool)
    ensures invalid <==> InvalidToken(t)
  {
    invalid := false;
    if FlagShaped(t) {
      invalid := true;
      if |t| >= 2 && t[1] == '-' {
        var i := 0;
        while i < |Commands|
          invariant 0 <= i <= |Commands|
          invariant invalid <==> forall j :: 0 <= j < i ==> t != Commands[j]
        {
          if t == Commands[i] {
            invalid := false;
          }
          i := i + 1;
        }
        assert Commands[0] == "--help" && Commands[1] == "--run";
        assert Commands[2] == "--file" && Commands[3] == "--assemble";
      } else {
        var i := 0;
        while i < |Arguments|
          invariant 0 <= i <= |Arguments|
          invariant invalid <==> forall j :: 0 <= j < i ==> |t| < 2 || t[1] != Arguments[j]
        {
          if |t| >= 2 && t[1] == Arguments[i] {
            invalid := false;
          }
          i := i + 1;
        }
        assert Arguments[1] == 'h' && Arguments[2] == 'f' && Arguments[3] == 's' && Arguments[4] == 'c';
        assert Arguments[5] == 'd' && Arguments[6] == 'r' && Arguments[7] == 'o' && Arguments[8] == 'a';
      }
    }
  }

  /** A lone "-" and a lone "--" are reported; "-rx" is not, though no flag is spelled so. */
  lemma DashExamples()
    ensures InvalidToken("-") && InvalidToken("--")
    ensures !InvalidToken("-rx") && Classify("-rx") == NoFlag
  {
  }

  /** A token that is not flag-shaped is never reported. */
  lemma OperandsNeverInvalid(t: string)
    requires !FlagShaped(t)
    ensures !InvalidToken(t)
  {
  }

  /** The validity check looks at the second character only. */
  lemma ShortTokensBySecondChar(t: string, u: string)
    requires FlagShaped(t) && FlagShaped(u) && |t| >= 2 && |u| >= 2
    requires t[1] == u[1] && t[1] != '-'
    ensures InvalidToken(t) <==> InvalidToken(u)
  {
  }
}
