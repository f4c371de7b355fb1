/**
 * The Solidity compilation checker
 * (applications/contract-translator/core/solidity_compiler.py).
 *
 * The compiler processes are not modelled: what running them did is an
 * abstract outcome, and the compiler itself is a function `run` from the
 * two command lines, the shell flag and the text of the temporary source
 * file to that outcome.
 */
module SolidityCompiler {
  import opened Wrappers
  import opened PyStr
  import opened Lines

  /** What one `<tool> --version` probe did while the checker was set up. */
  datatype ProbeOutcome =
    | ProbeExited(returnCode: int)
    | ProbeNotFound   // the executable does not exist
    | ProbeTimedOut   // it ran past its time limit

  /**
   * What compiling did: both processes (the compiler, then its version
   * query) exited; or one of them ran past its time limit; or another
   * exception was raised, with its text.
   */
  datatype CompileOutcome =
    | Exited(returnCode: int, stderr: string, versionReturnCode: int, versionStdout: string)
    | TimedOut
    | Crashed(message: string)

  /** The result record; `compiles == None` means no compiler was available. */
  datatype CompilationResult = CompilationResult(
    compiles: Option<bool>,
    errorMessage: Option<string>,
    warnings: seq<string>,
    compilerVersion: Option<string>)

  const SolcCommand: seq<string> := ["solc"]
  const SolcjsCommand: seq<string> := ["npx", "solcjs"]
  const PragmaPrefix := "pragma solidity"
  const WarningMarker := "Warning:"
  const UnknownVersion := "unknown"
  const UnavailableMessage := "solc compiler not available. Install with: npm install -g solc"
  const TimeoutMessage := "Compilation timed out after 30 seconds"
  const UnexpectedErrorPrefix := "Unexpected error during compilation: "

  /**
   * `_check_solc_available`: native `solc` is preferred; `npx solcjs` is
   * tried only when it does not answer with exit code 0.
   */
  function CheckSolcAvailable(solcProbe: ProbeOutcome, solcjsProbe: ProbeOutcome): (found: (Option<seq<string>>, bool))
    ensures found.1 <==> found.0.Some?
    ensures found.1 <==> solcProbe == ProbeExited(0) || solcjsProbe == ProbeExited(0)
    ensures solcProbe == ProbeExited(0) ==> found.0 == Some(SolcCommand)
    ensures solcProbe != ProbeExited(0) && solcjsProbe == ProbeExited(0) ==> found.0 == Some(SolcjsCommand)
    ensures found.0.Some? ==> found.0.value in {SolcCommand, SolcjsCommand}
  {
    if solcProbe == ProbeExited(0) then (Some(SolcCommand), true)
    else if solcjsProbe == ProbeExited(0) then (Some(SolcjsCommand), true)
    else (None, false)
  }

  /** The directory the compiler writes its artifacts to. */
  const OutputDir := "compilation_output"

  /** A command run through `npx`: it takes `--output-dir` instead of `-o` and runs through a shell. */
  predicate UsesNpx(compilerCmd: seq<string>)
  {
    |compilerCmd| > 0 && compilerCmd[0] == "npx"
  }

  /** The command line that compiles the file at `tmpPath` into the output directory. */
  function CompileCommand(compilerCmd: seq<string>, tmpPath: string): seq<string>
  {
    var outputFlag := if UsesNpx(compilerCmd) then "--output-dir" else "-o";
    compilerCmd + ["--bin", "--abi", outputFlag, OutputDir, tmpPath]
  }

  /** The command line that asks the compiler for its version. */
  function VersionCommand(compilerCmd: seq<string>): seq<string>
  {
    compilerCmd + ["--version"]
  }

  /**
   * The compiler processes: given the compile command line, the version
   * command line, whether both run through a shell, and the text of the
   * temporary source file, what running them did.
   */
  type Runner = (seq<string>, seq<string>, bool, string) -> CompileOutcome

  // ---------------------------------------------------------------------
  // stripping the version pragma
  // ---------------------------------------------------------------------

  /** A line whose text, once stripped, starts with `pragma solidity`. */
  predicate IsPragmaLine(line: string)
  {
    StartsWith(Strip(line), PragmaPrefix)
  }

  /** A line `_strip_version_pragma` keeps. */
  predicate IsCodeLine(line: string)
  {
    !IsPragmaLine(line)
  }

  /** The code with its version-pragma lines removed. */
  function StrippedCode(solidityCode: string): string
  {
    Join(NL, Filter(Split(solidityCode, NL), IsCodeLine))
  }

  /**
   * The kept lines are exactly the input lines at the non-pragma positions,
   * unchanged and in increasing order: a subsequence of the input lines that
   * leaves out the pragma lines and nothing else.
   */
  lemma StripKeepsExactlyCodeLines(solidityCode: string)
    ensures var lines := Split(solidityCode, NL);
            var pos := FilterPositions(lines, IsCodeLine);
            var kept := Filter(lines, IsCodeLine);
            && |pos| == |kept|
            && (forall k :: 0 <= k < |pos| ==>
                  0 <= pos[k] < |lines| && IsCodeLine(lines[pos[k]]) && kept[k] == lines[pos[k]])
            && (forall k, m :: 0 <= k < m < |pos| ==> pos[k] < pos[m])
            && (forall p :: 0 <= p < |lines| && !IsPragmaLine(lines[p]) ==> p in pos)
  {
    var lines := Split(solidityCode, NL);
    FilterPositionsMatch(lines, IsCodeLine);
    FilterPositionsIncrease(lines, IsCodeLine);
    FilterPositionsComplete(lines, IsCodeLine);
    FilterSatisfies(lines, IsCodeLine);
  }

  /**
   * The lines of the stripped code are the kept lines; when every line was
   * a pragma, the stripped code is empty and has the single empty line.
   */
  lemma StrippedCodeLines(solidityCode: string)
    ensures var kept := Filter(Split(solidityCode, NL), IsCodeLine);
            Split(StrippedCode(solidityCode), NL) == if kept == [] then [""] else kept
  {
    var lines := Split(solidityCode, NL);
    var kept := Filter(lines, IsCodeLine);
    if kept != [] {
      FilterPositionsMatch(lines, IsCodeLine);
      SplitPartsLackSeparator(solidityCode, NL);
      forall k | 0 <= k < |kept|
        ensures NL !in kept[k]
      {
        assert kept[k] == lines[FilterPositions(lines, IsCodeLine)[k]];
      }
      SplitJoin(NL, kept);
    }
  }

  /** No line of the stripped code is a version pragma. */
  lemma NoPragmaLineSurvives(solidityCode: string)
    ensures forall k :: 0 <= k < |Split(StrippedCode(solidityCode), NL)| ==>
              IsCodeLine(Split(StrippedCode(solidityCode), NL)[k])
  {
    StrippedCodeLines(solidityCode);
    var kept := Filter(Split(solidityCode, NL), IsCodeLine);
    FilterSatisfies(Split(solidityCode, NL), IsCodeLine);
    if kept == [] {
      assert Strip("") == "";
      assert IsCodeLine("");
    }
  }

  /** Code without pragma lines is returned unchanged. */
  lemma StripWithoutPragmaIsIdentity(solidityCode: string)
    requires forall k :: 0 <= k < |Split(solidityCode, NL)| ==> !IsPragmaLine(Split(solidityCode, NL)[k])
    ensures StrippedCode(solidityCode) == solidityCode
  {
    FilterKeepsAll(Split(solidityCode, NL), IsCodeLine);
    JoinSplit(solidityCode, NL);
  }

  /** Stripping twice is stripping once. */
  lemma StripIdempotent(solidityCode: string)
    ensures StrippedCode(StrippedCode(solidityCode)) == StrippedCode(solidityCode)
  {
    NoPragmaLineSurvives(solidityCode);
    var lines := Split(StrippedCode(solidityCode), NL);
    assert forall k :: 0 <= k < |lines| ==> IsCodeLine(lines[k]);
    StripWithoutPragmaIsIdentity(StrippedCode(solidityCode));
  }

  // ---------------------------------------------------------------------
  // warnings on stderr
  // ---------------------------------------------------------------------

  /** A stderr line that carries the warning marker. */
  predicate IsWarningLine(line: string)
  {
    Contains(line, WarningMarker)
  }

  /** The stripped stderr lines that carry the warning marker, in order. */
  function Warnings(stderr: string): seq<string>
  {
    Map(Filter(Split(stderr, NL), IsWarningLine), Strip)
  }

  /**
   * The warnings are exactly the stripped lines that carry the marker, one
   * per such line, in the order of the lines.
   */
  lemma WarningsAreMarkedLines(stderr: string)
    ensures var lines := Split(stderr, NL);
            var pos := FilterPositions(lines, IsWarningLine);
            var warnings := Warnings(stderr);
            && |pos| == |warnings|
            && (forall k :: 0 <= k < |pos| ==>
                  0 <= pos[k] < |lines| && IsWarningLine(lines[pos[k]]) && warnings[k] == Strip(lines[pos[k]]))
            && (forall k, m :: 0 <= k < m < |pos| ==> pos[k] < pos[m])
            && (forall p :: 0 <= p < |lines| && IsWarningLine(lines[p]) ==> p in pos)
  {
    var lines := Split(stderr, NL);
    FilterPositionsMatch(lines, IsWarningLine);
    FilterPositionsIncrease(lines, IsWarningLine);
    FilterPositionsComplete(lines, IsWarningLine);
    FilterSatisfies(lines, IsWarningLine);
    MapAt(Filter(lines, IsWarningLine), Strip);
  }

  /**
   * Stderr without the marker anywhere has no warning lines, so checking the
   * whole text first changes nothing.
   */
  lemma UnmarkedStderrHasNoWarnings(stderr: string)
    requires !Contains(stderr, WarningMarker)
    ensures Warnings(stderr) == []
  {
    var lines := Split(stderr, NL);
    forall k | 0 <= k < |lines|
      ensures !IsWarningLine(lines[k])
    {
      if IsWarningLine(lines[k]) {
        SplitPartInText(stderr, NL, k);
        ContainsTransitive(stderr, lines[k], WarningMarker);
      }
    }
    FilterKeepsNone(lines, IsWarningLine);
  }

  // ---------------------------------------------------------------------
  // the result record
  // ---------------------------------------------------------------------

  /** The record returned when no compiler was found. */
  const UnavailableResult := CompilationResult(None, Some(UnavailableMessage), [], None)

  /** The shape every result record has. */
  predicate WellFormed(result: CompilationResult)
  {
    && (result.compiles.None? ==>
          result.errorMessage.Some? && result.errorMessage.value != ""
          && result.warnings == [] && result.compilerVersion.None?)
    && (result.compiles == Some(true) ==> result.errorMessage.None? && result.compilerVersion.Some?)
    && (result.compiles == Some(false) ==> result.errorMessage.Some? && result.warnings == [])
  }

  /** The record for what running an available compiler did. */
  function ResultOf(outcome: CompileOutcome): (result: CompilationResult)
    ensures WellFormed(result)
    ensures result.compiles.Some?
    ensures result.compiles == Some(true) <==> outcome.Exited? && outcome.returnCode == 0
    ensures result.compilerVersion.Some? <==> outcome.Exited?
    ensures outcome.Exited? ==>
              result.compilerVersion == Some(if outcome.versionReturnCode == 0 then Strip(outcome.versionStdout) else UnknownVersion)
    ensures outcome.Exited? && outcome.returnCode == 0 ==> result.warnings == Warnings(outcome.stderr)
    ensures outcome.Exited? && outcome.returnCode != 0 ==> result.errorMessage == Some(Strip(outcome.stderr))
    ensures outcome.TimedOut? ==> result.errorMessage == Some(TimeoutMessage)
    ensures outcome.Crashed? ==> result.errorMessage == Some(UnexpectedErrorPrefix + outcome.message)
  {
    match outcome
    case Exited(returnCode, stderr, versionReturnCode, versionStdout) =>
      var compilerVersion := if versionReturnCode == 0 then Strip(versionStdout) else UnknownVersion;
      if returnCode == 0 then
        CompilationResult(Some(true), None, Warnings(stderr), Some(compilerVersion))
      else
        CompilationResult(Some(false), Some(Strip(stderr)), [], Some(compilerVersion))
    case TimedOut =>
      CompilationResult(Some(false), Some(TimeoutMessage), [], None)
    case Crashed(message) =>
      CompilationResult(Some(false), Some(UnexpectedErrorPrefix + message), [], None)
  }

  /**
   * The record `check_compilation` returns: the unavailable record without a
   * compiler, otherwise the record for what the compile and version commands
   * did with the pragma-stripped code written to `tmpPath`.
   */
  function CompilationResultFor(
    compilerCmd: Option<seq<string>>,
    solidityCode: string,
    tmpPath: string,
    run: Runner): (result: CompilationResult)
    ensures WellFormed(result)
    ensures result.compiles.None? <==> compilerCmd.None?
  {
    match compilerCmd
    case None => UnavailableResult
    case Some(cmd) =>
      ResultOf(run(CompileCommand(cmd, tmpPath), VersionCommand(cmd), UsesNpx(cmd), StrippedCode(solidityCode)))
  }

  // ---------------------------------------------------------------------
  // the summary line
  // ---------------------------------------------------------------------

  const SummaryLimit: nat := 100
  const Ellipsis := "..."
  const UnavailableSummary := "\U{26A0}\U{FE0F}  Compiler not available - cannot check compilation"
  const SuccessSummary := "\U{2705} Compiles successfully"
  const FailureSummary := "\U{274C} Compilation failed: "
  const WarningCountOpen := " ("
  const WarningCountClose := " warnings)"

  /** An error message cut to its first 100 characters plus `...` when longer. */
  function Truncate(message: string): (shown: string)
    ensures |message| <= SummaryLimit ==> shown == message
    ensures |message| > SummaryLimit ==>
              |shown| == SummaryLimit + |Ellipsis|
              && StartsWith(message, shown[..SummaryLimit])
              && shown[SummaryLimit..] == Ellipsis
  {
    if |message| > SummaryLimit then
      StartsWithOwnPrefix(message, SummaryLimit);
      message[..SummaryLimit] + Ellipsis
    else
      message
  }

  /** The count part of a success summary, empty for no warnings. */
  function WarningCountText(warnings: seq<string>): string
  {
    if warnings != [] then WarningCountOpen + DecimalString(|warnings|) + WarningCountClose else ""
  }

  /** `get_compilation_summary` for an already computed record. */
  function Summary(result: CompilationResult): (summary: string)
    requires WellFormed(result)
    ensures result.compiles.None? ==> summary == UnavailableSummary
    ensures result.compiles == Some(true) ==>
              StartsWith(summary, SuccessSummary) && (summary == SuccessSummary <==> result.warnings == [])
    ensures result.compiles == Some(false) ==>
              StartsWith(summary, FailureSummary)
              && |summary| <= |FailureSummary| + SummaryLimit + |Ellipsis|
  {
    match result.compiles
    case None => UnavailableSummary
    case Some(true) =>
      StartsWithConcat(SuccessSummary, WarningCountText(result.warnings));
      SuccessSummary + WarningCountText(result.warnings)
    case Some(false) =>
      StartsWithConcat(FailureSummary, Truncate(result.errorMessage.value));
      FailureSummary + Truncate(result.errorMessage.value)
  }

  /** The number shown in a success summary reads back as the number of warnings. */
  lemma SummaryShowsWarningCount(result: CompilationResult)
    requires WellFormed(result)
    requires result.compiles == Some(true) && result.warnings != []
    ensures var summary := Summary(result);
            var start := |SuccessSummary| + |WarningCountOpen|;
            var end := |summary| - |WarningCountClose|;
            && start <= end
            && summary == SuccessSummary + WarningCountOpen + summary[start..end] + WarningCountClose
            && (forall i :: start <= i < end ==> IsDigit(summary[i]))
            && DecimalValue(summary[start..end]) == |result.warnings|
  {
    var digits := DecimalString(|result.warnings|);
    var summary := Summary(result);
    assert summary == SuccessSummary + WarningCountOpen + digits + WarningCountClose;
    var start := |SuccessSummary| + |WarningCountOpen|;
    assert summary[start..|summary| - |WarningCountClose|] == digits;
    DecimalRoundTrip(|result.warnings|);
  }

  /** A failure summary shows the whole message when short, and its first 100 characters otherwise. */
  lemma FailureSummaryShowsMessage(result: CompilationResult)
    requires WellFormed(result)
    requires result.compiles == Some(false)
    ensures var message := result.errorMessage.value;
            var shown := Summary(result)[|FailureSummary|..];
            && (|message| <= SummaryLimit ==> shown == message)
            && (|message| > SummaryLimit ==> shown == message[..SummaryLimit] + Ellipsis)
  {
  }

  /** The stripped lines that carry the warning marker, in order. */
  method StripMarkedLines(lines: seq<string>) returns (warnings: seq<string>)
    ensures warnings == Map(Filter(lines, IsWarningLine), Strip)
  {
    warnings := [];
    for i := 0 to |lines|
      invariant warnings == Map(Filter(lines[..i], IsWarningLine), Strip)
    {
      assert lines[..i + 1] == lines[..i] + [lines[i]];
      MapFilterAppend(lines[..i], lines[i], IsWarningLine, Strip);
      var line := lines[i];
      if Contains(line, WarningMarker) {
        warnings := warnings + [Strip(line)];
      }
    }
    assert lines[..|lines|] == lines;
  }

  // ---------------------------------------------------------------------
  // the checker object
  // ---------------------------------------------------------------------

  /** `SolidityCompilationChecker`: the compiler command is chosen once, when it is created. */
  class SolidityCompilationChecker {
    const compilerCmd: Option<seq<string>>
    const solcAvailable: bool

    ghost predicate Valid()
    {
      && (solcAvailable <==> compilerCmd.Some?)
      && (compilerCmd.Some? ==> compilerCmd.value in {SolcCommand, SolcjsCommand})
    }

    /** `__init__`: probe for `solc`, then for `npx solcjs`. */
    constructor (solcProbe: ProbeOutcome, solcjsProbe: ProbeOutcome)
      ensures Valid()
      ensures (compilerCmd, solcAvailable) == CheckSolcAvailable(solcProbe, solcjsProbe)
    {
      var found := CheckSolcAvailable(solcProbe, solcjsProbe);
      compilerCmd := found.0;
      solcAvailable := found.1;
    }

    /** `_strip_version_pragma`: drop the lines whose stripped text starts with `pragma solidity`. */
    method StripVersionPragma(solidityCode: string) returns (stripped: string)
      ensures stripped == StrippedCode(solidityCode)
    {
      var lines := Split(solidityCode, NL);
      var filteredLines: seq<string> := [];
      for i := 0 to |lines|
        invariant filteredLines == Filter(lines[..i], IsCodeLine)
      {
        assert lines[..i + 1] == lines[..i] + [lines[i]];
        FilterAppend(lines[..i], lines[i], IsCodeLine);
        var line := lines[i];
        var strippedLine := Strip(line);
        if StartsWith(strippedLine, PragmaPrefix) {
          continue;
        }
        filteredLines := filteredLines + [line];
      }
      assert lines[..|lines|] == lines;
      stripped := Join(NL, filteredLines);
    }

    /** The warning extraction of a successful compilation. */
    method CollectWarnings(stderr: string) returns (warnings: seq<string>)
      ensures warnings == Warnings(stderr)
    {
      warnings := [];
      if Contains(stderr, WarningMarker) {
        warnings := StripMarkedLines(Split(stderr, NL));
      } else {
        UnmarkedStderrHasNoWarnings(stderr);
      }
    }

    /** `check_compilation`, with the compiler processes given as `run`. */
    method CheckCompilation(solidityCode: string, tmpPath: string, run: Runner)
      returns (result: CompilationResult)
      requires Valid()
      ensures result == CompilationResultFor(compilerCmd, solidityCode, tmpPath, run)
    {
      if !solcAvailable {
        return UnavailableResult;
      }
      var modifiedCode := StripVersionPragma(solidityCode);
      var compileCmd := CompileCommand(compilerCmd.value, tmpPath);
      var versionCmd := VersionCommand(compilerCmd.value);
      var outcome := run(compileCmd, versionCmd, UsesNpx(compilerCmd.value), modifiedCode);
      match outcome {
        case Exited(returnCode, stderr, versionReturnCode, versionStdout) =>
          var compilerVersion := if versionReturnCode == 0 then Strip(versionStdout) else UnknownVersion;
          if returnCode == 0 {
            var warnings := CollectWarnings(stderr);
            result := CompilationResult(Some(true), None, warnings, Some(compilerVersion));
          } else {
            result := CompilationResult(Some(false), Some(Strip(stderr)), [], Some(compilerVersion));
          }
        case TimedOut =>
          result := CompilationResult(Some(false), Some(TimeoutMessage), [], None);
        case Crashed(message) =>
          result := CompilationResult(Some(false), Some(UnexpectedErrorPrefix + message), [], None);
      }
    }

    /** `get_compilation_summary`: compile, then summarise the record. */
    method GetCompilationSummary(solidityCode: string, tmpPath: string, run: Runner)
      returns (summary: string)
      requires Valid()
      ensures summary == Summary(CompilationResultFor(compilerCmd, solidityCode, tmpPath, run))
    {
      var result := CheckCompilation(solidityCode, tmpPath, run);
      summary := Summary(result);
    }
  }

  /** `check_solidity_compiles`: a fresh checker, then one compilation check. */
  method CheckSolidityCompiles(
    solcProbe: ProbeOutcome,
    solcjsProbe: ProbeOutcome,
    solidityCode: string,
    tmpPath: string,
    run: Runner)
    returns (result: CompilationResult)
    ensures result == CompilationResultFor(CheckSolcAvailable(solcProbe, solcjsProbe).0, solidityCode, tmpPath, run)
  {
    var checker := new SolidityCompilationChecker(solcProbe, solcjsProbe);
    result := checker.CheckCompilation(solidityCode, tmpPath, run);
  }
}
