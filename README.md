# Contract translator: refinement gate, refiner prompt and compilation checker

A Dafny model of the deterministic logic in the contract translator's core
(`applications/contract-translator/core/`). The translator turns a natural-language
contract into Solidity, has an auditor agent review it, and loops the code through
a refiner agent while the audit says so. Around the LLM agents, three pieces of logic
are modelled:

- **The refinement gate** (`agents.py`). `should_refine` stops once the refinement
  count reaches the bound (default 2). Otherwise it refines exactly an unapproved
  report whose lower-cased severity is medium, high or critical. Missing keys
  default to severity `unknown` and `approved = False`. An audit → refine driver loop
  shows that any loop guarded by the gate stops within the bound.
- **The refiner's prompt** (`agents.py`). Each issue and recommendation becomes an
  `"  - "` bullet line joined by newlines. An empty or missing list becomes a fixed
  placeholder bullet. The code is embedded verbatim. The severity appears
  upper-cased in the findings header.
- **The Solidity compilation checker** (`solidity_compiler.py`). This is a class
  whose compiler command is chosen once, when it is created. It covers:
  - version-pragma stripping;
  - the command lines given to the compiler;
  - extracting warning lines from stderr;
  - the result record for each way compiling can end;
  - the one-line summary, with errors truncated to 100 characters.

The compiler processes are not modelled. A probe result (`ProbeOutcome`) stands for
each `--version` probe. A caller-supplied function `run` stands for compiling: it
maps the compile command line, the version command line, the shell flag and the
pragma-stripped code written to the temporary file to a `CompileOutcome`. The outcome is
one of three: both processes exited, with their return codes and output text; a
process ran past its time limit; or another exception occurred, with its text.

Files:

- `Wrappers.dfy`: the `Option` type, for dictionary keys that may be missing.
- `PyStr.dfy`: the Python string operations the source relies on. These are
  `split('\n')`, `'\n'.join`, `strip()` (with Python's whitespace set),
  `startswith`, `in`, ASCII `lower()`/`upper()` and decimal rendering of a count.
- `Lines.dfy`: filtering and mapping over line lists, and lemmas that characterise
  a filter by the positions it keeps.
- `Agents.dfy`: the audit report, the gate, the driver loop and the prompt.
- `SolidityCompiler.dfy`: the checker class, its specification functions and their
  lemmas.

## Model

| member | source | states |
|---|---|---|
| Agents.ShouldRefine | applications/contract-translator/core/agents.py:157-183 | The bound defaults to `DefaultMaxRefinementIterations` (2). Once the count reaches the bound, the result is false whatever the report says. An approved report is never refined. A severity whose lower-case form is not medium, high or critical is never refined. Under the bound, an unapproved report with one of those severities is always refined. |
| Agents.SeverityCaseInsensitive | applications/contract-translator/core/agents.py:176 | The severity is compared case-insensitively: any two spellings with the same lower-case form get the same answer from the gate. |
| Agents.LowSeveritiesTolerated | applications/contract-translator/core/agents.py:176-183 | The severities `none`, `low` and `unknown` never trigger refinement. |
| Agents.EmptyReportNotRefined | applications/contract-translator/core/agents.py:176-177 | A report with no keys at all defaults to `unknown`/unapproved and is never refined. |
| Agents.RefineThenStopScenario | applications/contract-translator/core/agents.py:173-183 | With the default bound, an unapproved `high` report at count 0 is refined. An unapproved `low` report at count 1 is not. |
| Agents.RefinementLoop | applications/contract-translator/core/agents.py:157-174 | A loop that audits, asks the gate and refines while the gate says so stops. It makes at most `max_iterations` refinements (at most 2 with the default bound). When it stops, the gate is closed on the report of the final code. The code is untouched when nothing was refined. |
| Agents.Bullets | applications/contract-translator/core/agents.py:201-202 | There is one line per item, in item order, and each line is `"  - "` followed by its item. |
| Agents.BulletListLines | applications/contract-translator/core/agents.py:197-202 | Split at newlines, a rendered non-empty list gives back exactly the bullet lines, in order, when no item holds a newline. An empty list gives back the single placeholder line. |
| Agents.PromptEmbedsCodeAndSeverity | applications/contract-translator/core/agents.py:186-211 | `create_refinement_task_description`: the prompt opens with the fixed code header. The code follows verbatim, then the findings header, then the upper-cased severity, then the `"):\n"` that closes the findings line. |
| Agents.PromptEmbedsBulletLists | applications/contract-translator/core/agents.py:197-215 | `create_refinement_task_description`: the rendered issue list starts right after the opening part (code header, code, findings header, severity banner, closing of the findings line), the fixes header right after the issue list, and the rendered recommendation list right after the fixes header. |
| Agents.MissingSeverityShownUnknown | applications/contract-translator/core/agents.py:199-211 | Without a severity key, the header shows `UNKNOWN`. |
| SolidityCompiler.CheckSolcAvailable | applications/contract-translator/core/solidity_compiler.py:37-66 | A compiler is found exactly when one of the probes exited with 0. Native `solc` wins when its probe succeeds. Otherwise `npx solcjs` is chosen when its probe succeeds. The command found is `solc` or `npx solcjs`, and availability and the command agree. |
| SolidityCompiler.SolidityCompilationChecker.constructor | applications/contract-translator/core/solidity_compiler.py:19-21 | The fields hold the probe's command and availability flag, which agree with each other. |
| SolidityCompiler.SolidityCompilationChecker.StripVersionPragma | applications/contract-translator/core/solidity_compiler.py:23-35 | The loop over the lines returns the specification `StrippedCode`: the lines whose stripped text does not start with `pragma solidity`, joined by newlines. |
| SolidityCompiler.StripKeepsExactlyCodeLines | applications/contract-translator/core/solidity_compiler.py:25-33 | The kept lines are the input lines at increasing positions, unchanged (not stripped). Every kept line is a non-pragma line, and every non-pragma line's position is among them, so only pragma lines are dropped. |
| SolidityCompiler.StrippedCodeLines | applications/contract-translator/core/solidity_compiler.py:25-35 | Split again, the stripped code gives back the kept lines. It gives the single empty line when every line was a pragma. |
| SolidityCompiler.NoPragmaLineSurvives | applications/contract-translator/core/solidity_compiler.py:28-33 | No line of the stripped code is a version pragma. |
| SolidityCompiler.StripWithoutPragmaIsIdentity | applications/contract-translator/core/solidity_compiler.py:25-35 | Code without any pragma line is returned unchanged. |
| SolidityCompiler.StripIdempotent | applications/contract-translator/core/solidity_compiler.py:23-35 | Stripping twice gives the same code as stripping once. |
| SolidityCompiler.StripMarkedLines | applications/contract-translator/core/solidity_compiler.py:140-142 | The loop over the stderr lines returns the specification: the stripped lines that contain `Warning:`, in order. |
| SolidityCompiler.SolidityCompilationChecker.CollectWarnings | applications/contract-translator/core/solidity_compiler.py:137-142 | The guarded extraction returns `Warnings(stderr)`, the same list whether or not the whole-stderr check comes first. |
| SolidityCompiler.WarningsAreMarkedLines | applications/contract-translator/core/solidity_compiler.py:140-142 | The warnings are exactly the stripped versions of the stderr lines that contain `Warning:`. There is one per such line, in the order of the lines. |
| SolidityCompiler.UnmarkedStderrHasNoWarnings | applications/contract-translator/core/solidity_compiler.py:138-142 | When stderr does not contain `Warning:` anywhere, no line does, so the list is empty. |
| SolidityCompiler.ResultOf | applications/contract-translator/core/solidity_compiler.py:132-173 | Every outcome of an available compiler gives a well-formed record. Exit code 0 gives `compiles = True` with the warning lines. Another exit code gives `compiles = False` with the stripped stderr and no warnings. The version is the stripped version output, or `unknown` when the query failed. A timeout or another exception gives `compiles = False`, its fixed or prefixed message, no warnings and no version. |
| SolidityCompiler.CompilationResultFor | applications/contract-translator/core/solidity_compiler.py:83-93 | The record is always well-formed. `compiles` is None exactly when no compiler was found, and then the message is non-empty and there are no warnings and no version. |
| SolidityCompiler.SolidityCompilationChecker.CheckCompilation | applications/contract-translator/core/solidity_compiler.py:68-173 | It returns the specification record for the compiler chosen at construction. That record comes from running the compile command on the pragma-stripped code in the temporary file. The compile command is the compiler command, then `--bin --abi`, then `--output-dir` for `npx` or `-o` otherwise, then the output directory and the file. The version command is the compiler command plus `--version`. Both run through a shell exactly for `npx`. |
| SolidityCompiler.Truncate | applications/contract-translator/core/solidity_compiler.py:200 | A message of at most 100 characters is shown whole. A longer one shows its first 100 characters followed by `...`. |
| SolidityCompiler.Summary | applications/contract-translator/core/solidity_compiler.py:194-201 | Without a compiler, the summary is the fixed warning line. On success it starts with the success text and is exactly that text when there are no warnings. On failure it starts with the failure text and is at most 103 characters longer. |
| SolidityCompiler.SummaryShowsWarningCount | applications/contract-translator/core/solidity_compiler.py:197-198 | With warnings, the summary is the success text, then ` (`, then a run of digits that reads back as the number of warnings, then ` warnings)`. |
| SolidityCompiler.FailureSummaryShowsMessage | applications/contract-translator/core/solidity_compiler.py:199-201 | After the failure text, the summary shows the whole message when it is short. Otherwise it shows its first 100 characters plus `...`. |
| SolidityCompiler.SolidityCompilationChecker.GetCompilationSummary | applications/contract-translator/core/solidity_compiler.py:182-201 | It returns the summary of the record that compiling gives. |
| SolidityCompiler.CheckSolidityCompiles | applications/contract-translator/core/solidity_compiler.py:205-216 | A fresh checker's record is the specification record for the compiler its probes found. |
| PyStr.Split | applications/contract-translator/core/solidity_compiler.py:25 | `split('\n')` always gives at least one line. |
| PyStr.SplitPartsLackSeparator | applications/contract-translator/core/solidity_compiler.py:25 | No line of a split contains the separator. |
| PyStr.JoinSplit | applications/contract-translator/core/solidity_compiler.py:25-35 | Joining the lines of a split with the separator gives back the text. |
| PyStr.SplitJoin | applications/contract-translator/core/agents.py:201-202 | Splitting the join of a non-empty list of separator-free parts gives back the parts. |
| PyStr.SplitWithoutSeparator | applications/contract-translator/core/agents.py:201-202 | A text without the separator splits into itself alone. |
| PyStr.StartsWithIsSlice | applications/contract-translator/core/solidity_compiler.py:31 | The character-by-character `startswith` agrees with comparing the first characters. |
| PyStr.ContainsIsOccurrence | applications/contract-translator/core/solidity_compiler.py:138-141 | `sub in s` holds exactly when `sub` occurs in `s` at some index. |
| PyStr.ContainsTransitive | applications/contract-translator/core/solidity_compiler.py:138-141 | A substring of a substring is a substring. |
| PyStr.SplitPartInText | applications/contract-translator/core/solidity_compiler.py:140 | Every line of a split occurs in the text that was split. |
| PyStr.JoinContainsPart | applications/contract-translator/core/solidity_compiler.py:35 | Every part of a join occurs in the joined text. |
| PyStr.LeadingSpaceIsMaximal | applications/contract-translator/core/solidity_compiler.py:29 | The text `strip()` removes at the front is all whitespace and stops at the first other character. |
| PyStr.TrailingSpaceIsMaximal | applications/contract-translator/core/solidity_compiler.py:29 | The text `strip()` removes at the back is all whitespace and stops at the last other character. |
| PyStr.StripIsInfix | applications/contract-translator/core/solidity_compiler.py:29 | The stripped text occurs in the original right after the leading whitespace, with only whitespace after it. |
| PyStr.StripHasNoOuterSpace | applications/contract-translator/core/solidity_compiler.py:29 | The stripped text neither starts nor ends with whitespace. |
| PyStr.Lower | applications/contract-translator/core/agents.py:176 | Lower-casing keeps the length and lower-cases each character. |
| PyStr.Upper | applications/contract-translator/core/agents.py:211 | Upper-casing keeps the length and upper-cases each character. |
| PyStr.DecimalString | applications/contract-translator/core/solidity_compiler.py:197 | The rendering of a count is non-empty, all digits and without a leading zero. |
| PyStr.DecimalRoundTrip | applications/contract-translator/core/solidity_compiler.py:197 | The digits of a count read back as the count. |
| Lines.FilterSatisfies | applications/contract-translator/core/solidity_compiler.py:28-33 | Every element a filter keeps satisfies its test. |
| Lines.FilterPositionsMatch | applications/contract-translator/core/solidity_compiler.py:28-33 | Each kept element is the input element at its recorded position. |
| Lines.FilterPositionsIncrease | applications/contract-translator/core/solidity_compiler.py:28-33 | The recorded positions increase, so the kept elements keep their order. |
| Lines.FilterPositionsComplete | applications/contract-translator/core/solidity_compiler.py:28-33 | Every input position whose element satisfies the test is recorded. |
| Lines.FilterKeepsAll | applications/contract-translator/core/solidity_compiler.py:28-33 | A filter keeps the whole input when every element satisfies the test. |
| Lines.FilterKeepsNone | applications/contract-translator/core/solidity_compiler.py:140-142 | A filter keeps nothing when no element satisfies the test. |
| Lines.FilterAppend | applications/contract-translator/core/solidity_compiler.py:28-33 | One more input element is appended to the output exactly when it is kept. This is the step of the stripping loop. |
| Lines.MapFilterAppend | applications/contract-translator/core/solidity_compiler.py:140-142 | One more marked line appends its stripped form. This is the step of the warning loop. |
| Lines.MapAt | applications/contract-translator/core/solidity_compiler.py:142 | Each mapped element is the function applied to the input element at the same index. |

## Left out

- Processes, files and time are not modelled: `subprocess.run`, the temporary `.sol` file and its removal, creating `compilation_output`, the 30 s and 5 s timeouts, and running `npx` through a shell. Their effect is the abstract `ProbeOutcome`/`CompileOutcome`. The temporary file's path is a parameter of `CheckCompilation`.
- SolidityCompiler.CheckSolcAvailable: a probe that raises anything other than "not found" or "timed out" propagates out of the constructor in the source. Here a probe has only those outcomes or an exit code.
- SolidityCompiler.CompilationResultFor: exceptions from creating the output directory or the temporary file happen before the `try` block and propagate. Here every failure is a `Crashed` outcome or a timeout. The text of `str(e)` is the outcome's message and is not derived.
- PyStr.Upper: ASCII only. Python's `upper()` also maps other letters, some into several characters (`ß` becomes `SS`), so a non-ASCII severity is shown differently in the prompt header.
- PyStr.Lower: ASCII only. For the gate this agrees with Python: no non-ASCII character lower-cases into `medium`, `high` or `critical`.
- Agents.AuditReport: the severity is a string and `approved` is a boolean, each possibly missing. A present non-string severity (which makes the source raise on `.lower()`) and a non-boolean `approved` judged by Python truthiness are not modelled. Nor are `issues`/`recommendations` present but `None`.
- Agents.RefinementLoop: the translator's own pipeline is not part of this model. The loop is a driver around the gate, with the auditor and refiner as arbitrary functions.
- `create_agents` and `_convert_to_crew_llm` (agents.py:25-154) only build agent-framework objects from environment settings and are not modelled.
- The fixed prose of the refiner prompt is kept as constant text. Only the positions of the headers, the code, the severity, the end of the findings line and the two bullet lists are stated; the requirements text after the recommendations is not.
- `applications/launch_demo.py` (process and server bootstrapping) and `applications/contract-translator/core/__init__.py` (re-exports) are not part of this model.
