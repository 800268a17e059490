# lc3script in Dafny

lc3script is a small command-line front end for the LC-3 simulator `lc3sim`.
From its arguments it collects one or more input names and a few switches.
It can assemble the inputs with `lc3as`, writes a script of simulator
directives (`file <name>`, `c`, `d <args>`), and can launch `lc3sim` on that
script and remove the script afterwards. Its whole logic sits in one `main`
function. This project models that function and proves what it computes.

The model is split into six modules. Five follow the stages of `main`, and `ScanFacts` holds the lemmas about the scan:

- `Flags` (`flags.dfy`) holds the flag catalog: the two tables the validity
  check walks, `Classify`, which says which flag a token is, and the
  validity check `CheckToken`. `CheckToken` is a loop over the tables,
  proved equal to the table-free predicate `InvalidToken`.
- `Scanner` (`scanner.dfy`) holds the scan loop over the whole argument
  vector.
  - `argv` is a `seq<string>` holding the program name first, since the
    loop starts at index 0.
  - The option state is the `Options` record of main's locals. The seven
    booleans are the set `on` of `Switch` values that are on; `o.autoRun`
    and the others read that set.
  - `ScanArgs` is a `while` loop with the lookahead and copy loops as
    helper methods. It is proved equal to a fold of a one-token step
    function (`ScanUpTo`/`Step`), and it records invalid positions the way
    `invalidLocations` does.
- `ScanFacts` (`scan_facts.dfy`) states what the scan yields, one option at
  a time, directly in terms of the argument vector:
  - presence switches;
  - "the last occurrence wins";
  - the maximal operand runs;
  - the concatenation of dump arguments.
- `Script` (`script.dfy`) holds the loop that writes the script lines. It
  also holds a reader for the script format and a round-trip proof.
- `Commands` and `Driver` (`commands.dfy`, `driver.dfy`) hold the
  following:
  - the assembler loop;
  - the simulator and removal command strings;
  - the order of the early exits with their codes: 1 for no arguments or
    help, 2 for invalid flags, 3 for no files, 4 for an assembler failure,
    0 otherwise;
  - `Run`, the whole program, proved equal to the ghost function
    `Expected`.

The shell is not called. The exit status of each assembler call comes from
a parameter `status: string -> int`. The simulator and `rm` command lines
are returned in `Done`, because `main` ignores their exit statuses.

Tokens are sequences of characters. A C string cannot contain NUL, so
comparing whole sequences is the same as `strcmp` returning 0. Reading
`argv[k][0]` or `argv[k][1]` past the end of a token yields NUL, so "the
character is '-'" holds only when the token is long enough.

The flags are mutually exclusive: no token spells two of them. This is
proved in `Flags.ClassifyExact`. So the scanner's chain of separate `if`
tests is modelled as one `match` on the token's flag (`Scanner.Effect`).
`Scanner.ApplyToken` keeps the chain of tests and is proved equal to it.

On repeated `-d` flags, the code (line 180) appends each `-d`'s operands
directly after what earlier ones produced, with no separator, although a
separating space might be expected. The model keeps this behaviour. It is
stated in `ScanFacts.DumpArgIsConcat` and shown in `ScanFacts.DumpQuirk`.

## Model

| member | source | states |
|---|---|---|
| Flags.ClassifyExact | lc3script.cpp:134-199 | each flag is recognised by exactly its spellings (`-h`/`--help`, `--run`/`-r`, `--file`/`-f`, `-s`, `-c`, `-d`, `-o`, `--assemble`/`-a`), so at most one flag test fires per token |
| Flags.ClassifiedAreValid | lc3script.cpp:202-221 | every recognised flag is flag-shaped and passes the validity check |
| Flags.CheckToken | lc3script.cpp:202-216 | the table walk over `commands` (for tokens starting with `--`) or `arguments` (by the second character) flags a token exactly when `InvalidToken` holds: flag-shaped, and either starting with `--` without being one of the four long flags, or with a second character, absent for `-`, that is not one of `h f s c d r o a` |
| Flags.DashExamples | lc3script.cpp:202-221 | `-` and `--` are reported as invalid; `-rx` is not, yet it is no flag |
| Flags.OperandsNeverInvalid | lc3script.cpp:202 | a token not starting with `-` is never reported |
| Flags.ShortTokensBySecondChar | lc3script.cpp:211-216 | for short-form tokens, validity depends on the second character only |
| Scanner.RunEnd | lc3script.cpp:147 | the end of the operand run after a flag is the first flag-shaped token at or after the start, or the end of argv; every token before it is an operand |
| Scanner.FindRunEnd | lc3script.cpp:147 | the lookahead loop stops exactly at `RunEnd` |
| Scanner.CollectNames | lc3script.cpp:148-151 | the copy loop yields exactly `argv[from..to]` |
| Scanner.AppendDump | lc3script.cpp:178-183 | the append loop adds the operands to the dump argument, separated by single spaces, with no space before the first or after the last |
| Scanner.ApplyFile | lc3script.cpp:145-153 | the `-f`/`--file` test replaces the input list with the operand run when the flag is not last, and otherwise leaves the state alone |
| Scanner.ApplyDump | lc3script.cpp:174-185 | the `-d` test switches the dump on and appends its joined operand run when the flag is not last |
| Scanner.ApplyToken | lc3script.cpp:139-199 | the chain of flag tests of one iteration equals the one-token step `Step` |
| Scanner.InvalidUpTo | lc3script.cpp:201-221 | the recorded positions are in range, strictly increasing, and are exactly the positions holding an invalid token |
| Scanner.RecordInvalid | lc3script.cpp:201-221 | one iteration's validity check appends the position exactly when the token is invalid |
| Scanner.ScanArgs | lc3script.cpp:132-222 | the loop stops on help exactly when some token is `-h` or `--help`; otherwise its final state is the fold `Scan(argv)` and its invalid positions are `InvalidUpTo(argv, \|argv\|)` |
| ScanFacts.EffectPresence | lc3script.cpp:139-199 | `-r`/`--run`, `-a`/`--assemble` and `-s` switch their option on; no token switches it off |
| ScanFacts.EffectCapture | lc3script.cpp:187-194 | only `-o` switches output capture on; only `-o` followed by an operand sets the output name and drops the derived name |
| ScanFacts.EffectDump | lc3script.cpp:173-185 | only `-d` switches the dump on and extends the dump argument, by the joined operand run after it |
| ScanFacts.EffectContinue | lc3script.cpp:163-171 | only `-c` followed by exactly `disable` switches auto-continue off |
| ScanFacts.EffectFiles | lc3script.cpp:144-153 | only a `-f`/`--file` that is not last changes the input list, to its operand run |
| ScanFacts.EffectScriptName | lc3script.cpp:155-161 | only `-s` followed by an operand renames the script |
| ScanFacts.EffectSwitch | lc3script.cpp:139-199 | each of the five presence switches is on after a token iff it was on before or the token is its flag |
| ScanFacts.StepCapture | lc3script.cpp:187-194 | the `-o` effect, stated for the flag the token at k is |
| ScanFacts.StepDump | lc3script.cpp:173-185 | the `-d` effect on the dump argument, for the token at k |
| ScanFacts.StepContinue | lc3script.cpp:163-171 | the `-c disable` effect, for the token at k |
| ScanFacts.StepFiles | lc3script.cpp:144-153 | the `-f` effect, for the token at k |
| ScanFacts.StepScriptName | lc3script.cpp:155-161 | the `-s` effect, for the token at k |
| ScanFacts.OperandHasNoEffect | lc3script.cpp:132-199 | the loop visits operands too, and they leave the state unchanged |
| ScanFacts.LongShortTokenIsInert | lc3script.cpp:139-221 | a token like `-rx` (longer than two characters, second character a flag letter) passes the validity check and changes nothing |
| ScanFacts.SwitchIff | lc3script.cpp:117-199 | `autoRun`, `useAssembler`, `saveScript`, `writeOutput` and `autoDump` are on after k tokens iff their flag occurs among them |
| ScanFacts.AutoContinueIff | lc3script.cpp:115-171 | auto-continue is on iff no `-c` is immediately followed by exactly `disable`; nothing turns it back on |
| ScanFacts.DefaultOutputIff | lc3script.cpp:114-194 | the derived output name is used iff no `-o` is followed by an operand |
| ScanFacts.FilesLastWins | lc3script.cpp:144-153 | the input list is exactly the operand run of the last `-f`/`--file` that is not the final token; earlier lists are replaced, not extended |
| ScanFacts.FilesNone | lc3script.cpp:108-153 | without such a flag the input list stays empty |
| ScanFacts.LastListingExists | lc3script.cpp:144-153 | when some `-f` is not last, there is a last such one |
| ScanFacts.NoFilesIff | lc3script.cpp:144-153 | no input names are collected iff every last non-final `-f`/`--file` is followed directly by a flag-shaped token, which holds vacuously when there is none |
| ScanFacts.OperandsMaximal | lc3script.cpp:147 | an operand run holds no flag-shaped token, ends only at a flag-shaped token or at the end, and is empty iff it starts at one |
| ScanFacts.ScriptNameLastWins | lc3script.cpp:155-161 | the script name is the operand of the last `-s` that has one |
| ScanFacts.ScriptNameDefault | lc3script.cpp:102 | without an `-s` that has an operand the script is `.run_script` |
| ScanFacts.SimOutputLastWins | lc3script.cpp:187-194 | the explicit output name is the operand of the last `-o` that has one, and the derived name is then off |
| ScanFacts.DumpArgIsConcat | lc3script.cpp:174-185 | the dump argument is the direct concatenation, without separators, of each `-d`'s operands joined by single spaces; a bare `-d` adds nothing |
| ScanFacts.DumpQuirk | lc3script.cpp:178-183 | `-d x -d y` gives the dump argument `xy` |
| Script.WriteScript | lc3script.cpp:266-275 | the script is one `file <name>` line per input in order, then `c` iff auto-continue is on, then `d <dumpArg>` iff a dump was requested, and nothing else |
| Script.ParseFileLines | lc3script.cpp:268-270 | the block of `file` lines reads back as exactly the input names |
| Script.ScriptRoundTrip | lc3script.cpp:266-275 | reading the list of script lines back yields the input names, the continue switch and the dump argument (when requested); this is a round trip over lines, not over the written text (see the line on line breaks under "Left out") |
| Commands.Assemble | lc3script.cpp:250-259 | every input is assembled in order with `lc3as <name>`, with no extension added, even after a failure; the run fails iff some call's status is non-zero |
| Commands.BuildLaunch | lc3script.cpp:282-294 | the simulator call is `lc3sim -s <script>`, followed by ` > <out>` iff output capture is on; `<out>` is the last input plus `.out` unless `-o` named a file |
| Driver.Run | lc3script.cpp:126-316 | the program's outcome equals `Expected`: the checks in order on the scan result, then assembly, script and calls |
| Driver.ReportInvalid | lc3script.cpp:225-233 | the reported tokens are the tokens at the recorded positions, in order |
| Driver.CallsAfterScript | lc3script.cpp:295-313 | the calls after the script is written: the simulator call if `-r` was given, then `rm <script>` if, in addition, `-s` was not |
| Driver.RunChecked | lc3script.cpp:248-316 | once the checks pass: abort with every attempted assembler call when one fails, else return the script and the calls |
| Driver.DecideExitCode | lc3script.cpp:126-263 | for any scan result, the exit code is 1, 2, 3, 4 or 0, exactly under the conditions checked in that order |
| Driver.ReportedTokens | lc3script.cpp:217-229 | the tokens at exactly the invalid positions are all invalid and include every invalid token |
| Driver.AnyInvalidIff | lc3script.cpp:217-225 | the run aborts on invalid flags iff some token is invalid |
| Driver.ExitCodeOrder | lc3script.cpp:126-263 | in terms of argv: 1 for no arguments or any help token, even after invalid ones; otherwise 2 for any invalid token, checked before 3 for no input names; then 4 when assembly was asked for and some call fails; else 0 |
| Driver.InvalidReport | lc3script.cpp:217-229 | on exit 2, the reported tokens are flag-shaped and invalid, and they are the tokens at a strictly increasing list of positions that holds exactly the positions of invalid tokens, so every occurrence is reported once, in order |
| Driver.AssemblerAttemptsAll | lc3script.cpp:250-263 | on exit 4, assembly was asked for and every input was attempted, in order |
| Driver.AfterScriptShape | lc3script.cpp:295-313 | after the script there are at most two calls: the launch iff `autoRun`, then the removal iff also `!saveScript` |
| Driver.LaunchAndCleanup | lc3script.cpp:295-313 | on success there are at most two calls after the script: the simulator is launched iff a `-r`/`--run` token occurs, and the script is removed iff, in addition, no `-s` occurs |
| Driver.SimOutputTarget | lc3script.cpp:283-294 | on success the output file is the last input plus `.out` unless some `-o` named a file, in which case it is the last such name |

## Left out

- The `system()` calls (lines 256, 298, 312) are not made. The assembler's exit status is the parameter `status`. The simulator and `rm` commands are returned as strings, since their statuses are ignored.
- Writing the script with `ofstream` (lines 267-275) is modelled as the list of lines `Run` returns. File-system failures are not modelled.
- Console output is not modelled: the usage and help banners, "Continue disabled.", the invalid-argument list, the file list and the progress lines (lines 67-95, 167, 226-244, 253, 277, 296-315). `Outcome` says which ending, and so which banner, is shown, and carries the invalid tokens in order.
- The fixed-size buffers are not modelled: `_MaxInputCount`, `_MaxArgs`, `_MaxNameLen` and the 500-character `launchCommand` (lines 55-57, 101-110, 123). Overflowing them is undefined behaviour in C. The model uses unbounded sequences and strings.
- The installation and compilation notes in the header comment contain no logic.
- Script.ScriptRoundTrip: the script is modelled as a list of lines, not as the text that `endl` (lines 268-274) joins them into. A name containing a line break writes extra directives into the text. For example, the name `a` followed by a line break and `c`, together with `-c disable`, writes the same text as the name `a` with continue on. So the round trip holds for the lines, and for the text only when no name contains a line break.
- Commands.Assemble: the assembler's exit status is a function of the command text alone, so an input listed twice gets the same status on both calls. `system()` (line 256) promises no such thing. No stated property depends on it.
