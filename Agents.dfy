/**
 * The refinement gate of the audit -> refine loop and the refiner prompt
 * (applications/contract-translator/core/agents.py).
 */
module Agents {
  import opened Wrappers
  import opened PyStr

  /** Default bound on refinement passes. */
  const DefaultMaxRefinementIterations: int := 2

  /**
   * An audit report as the auditor hands it over: a dictionary whose keys
   * may each be missing (`None`).
   */
  datatype AuditReport = AuditReport(
    issues: Option<seq<string>>,
    recommendations: Option<seq<string>>,
    severityLevel: Option<string>,
    approved: Option<bool>)

  /** The report with none of its keys. */
  const EmptyReport := AuditReport(None, None, None, None)

  /** Lower-cased severities that call for another refinement pass. */
  const RefineSeverities: set<string> := {"medium", "high", "critical"}

  /** `report.get('severity_level', 'unknown')`. */
  function SeverityOf(report: AuditReport): string
  {
    report.severityLevel.GetOr("unknown")
  }

  /** `report.get('approved', False)`. */
  function ApprovedOf(report: AuditReport): bool
  {
    report.approved.GetOr(false)
  }

  /**
   * `should_refine`: once the count reaches the bound, stop; otherwise refine
   * exactly an unapproved report of medium, high or critical severity.
   */
  function ShouldRefine(report: AuditReport, refinementCount: int,
                        maxIterations: int := DefaultMaxRefinementIterations): (refine: bool)
    ensures refinementCount >= maxIterations ==> !refine
    ensures ApprovedOf(report) ==> !refine
    ensures Lower(SeverityOf(report)) !in RefineSeverities ==> !refine
    ensures (refinementCount < maxIterations && !ApprovedOf(report)
             && Lower(SeverityOf(report)) in RefineSeverities) ==> refine
  {
    if refinementCount >= maxIterations then false
    else
      var severity := Lower(SeverityOf(report));
      var approved := ApprovedOf(report);
      !approved && severity in RefineSeverities
  }

  /** Severity is compared without regard to case: spellings with the same lower-case form get the same answer. */
  lemma SeverityCaseInsensitive(report: AuditReport, s: string, t: string, refinementCount: int, maxIterations: int)
    requires Lower(s) == Lower(t)
    ensures ShouldRefine(report.(severityLevel := Some(s)), refinementCount, maxIterations)
         == ShouldRefine(report.(severityLevel := Some(t)), refinementCount, maxIterations)
  {
  }

  /** `none`, `low` and `unknown` are tolerated: they never trigger refinement. */
  lemma LowSeveritiesTolerated(report: AuditReport, refinementCount: int, maxIterations: int)
    requires SeverityOf(report) in {"none", "low", "unknown"}
    ensures !ShouldRefine(report, refinementCount, maxIterations)
  {
  }

  /** A report with neither key (an empty dictionary) never triggers refinement. */
  lemma EmptyReportNotRefined(refinementCount: int, maxIterations: int)
    ensures !ShouldRefine(EmptyReport, refinementCount, maxIterations)
  {
  }

  /** The two-step scenario: a high-severity report is refined, then a low one is not. */
  lemma RefineThenStopScenario()
    ensures ShouldRefine(AuditReport(None, None, Some("high"), Some(false)), 0)
    ensures !ShouldRefine(AuditReport(None, None, Some("low"), Some(false)), 1)
  {
    assert Lower("high") == "high";
    LowSeveritiesTolerated(AuditReport(None, None, Some("low"), Some(false)), 1, DefaultMaxRefinementIterations);
  }

  /**
   * The audit -> refine loop driven by `ShouldRefine`: audit the code, and
   * while the gate says so, refine it, count the pass and audit again. The
   * auditor and the refiner are arbitrary functions. The loop stops after at
   * most `maxIterations` refinements, with the gate closed on the last report.
   */
  method RefinementLoop(
    generatedCode: string,
    audit: string -> AuditReport,
    refine: (string, AuditReport) -> string,
    maxIterations: int := DefaultMaxRefinementIterations)
    returns (code: string, report: AuditReport, refinements: nat)
    ensures refinements <= if maxIterations < 0 then 0 else maxIterations
    ensures report == audit(code)
    ensures !ShouldRefine(report, refinements, maxIterations)
    ensures refinements == 0 ==> code == generatedCode
  {
    code := generatedCode;
    report := audit(code);
    refinements := 0;
    while ShouldRefine(report, refinements, maxIterations)
      invariant refinements == 0 || refinements <= maxIterations
      invariant report == audit(code)
      invariant refinements == 0 ==> code == generatedCode
      decreases maxIterations - refinements
    {
      code := refine(code, report);
      refinements := refinements + 1;
      report := audit(code);
    }
  }

  // ---------------------------------------------------------------------
  // the refiner's prompt
  // ---------------------------------------------------------------------

  const BulletPrefix := "  - "
  const NoIssuesBullet := "  - No specific issues listed"
  const NoRecommendationsBullet := "  - No specific recommendations"

  /** One bullet line per item. */
  function Bullets(items: seq<string>): (lines: seq<string>)
    ensures |lines| == |items|
    ensures forall k :: 0 <= k < |items| ==> lines[k] == BulletPrefix + items[k]
  {
    if |items| == 0 then [] else [BulletPrefix + items[0]] + Bullets(items[1..])
  }

  /** The bullet lines joined by newlines, or the placeholder bullet for no items. */
  function BulletList(items: seq<string>, placeholder: string): string
  {
    if |items| == 0 then placeholder else Join(NL, Bullets(items))
  }

  /** A bullet line holds no newline when its item holds none. */
  lemma BulletsLackNewline(items: seq<string>)
    requires forall k :: 0 <= k < |items| ==> NL !in items[k]
    ensures forall k :: 0 <= k < |items| ==> NL !in Bullets(items)[k]
  {
  }

  /**
   * Read back line by line, a rendered list gives one `"  - " + item` line per
   * item, in order, or the placeholder alone for no items.
   */
  lemma BulletListLines(items: seq<string>, placeholder: string)
    requires forall k :: 0 <= k < |items| ==> NL !in items[k]
    requires NL !in placeholder
    ensures |items| == 0 ==> Split(BulletList(items, placeholder), NL) == [placeholder]
    ensures |items| > 0 ==> Split(BulletList(items, placeholder), NL) == Bullets(items)
  {
    if |items| == 0 {
      SplitWithoutSeparator(placeholder, NL);
    } else {
      BulletsLackNewline(items);
      SplitJoin(NL, Bullets(items));
    }
  }

  const CodeHeader :=
    "Fix ALL security vulnerabilities in this Solidity smart contract.\n\n"
    + "CURRENT CONTRACT CODE:\n```solidity\n"
  const FindingsHeader := "\n```\n\nSECURITY AUDIT FINDINGS (Severity: "
  const FindingsHeaderEnd := "):\n"
  const FixesHeader := "\n\nREQUIRED FIXES:\n"
  const Requirements :=
    "\n\nCRITICAL REQUIREMENTS:\n"
    + "1. Fix EVERY issue listed above - do not skip any vulnerability\n"
    + "2. Follow the Checks-Effects-Interactions pattern for all external calls\n"
    + "3. Add reentrancy guards (nonReentrant modifier) where needed\n"
    + "4. Ensure ALL state changes happen BEFORE external calls\n"
    + "5. Add proper access control (onlyOwner, role-based) on sensitive functions\n"
    + "6. Validate ALL inputs with require() statements - no silent failures\n"
    + "7. Check for zero addresses on address parameters\n"
    + "8. Ensure arithmetic operations are safe (Solidity ^0.8.0 has built-in overflow protection)\n"
    + "9. Preserve the original contract functionality while fixing security issues\n\n"
    + "Return ONLY the complete, fixed Solidity code with ALL vulnerabilities addressed.\n"
    + "Do not include explanations - just the corrected code."

  /** The severity as the prompt header shows it. */
  function SeverityBanner(report: AuditReport): string
  {
    Upper(SeverityOf(report))
  }

  /** The prompt up to the findings header line: the code block and the severity. */
  function PromptHead(solidityCode: string, report: AuditReport): string
  {
    CodeHeader + solidityCode + FindingsHeader + SeverityBanner(report) + FindingsHeaderEnd
  }

  /** `create_refinement_task_description`. */
  function RefinementTaskDescription(solidityCode: string, report: AuditReport): string
  {
    PromptHead(solidityCode, report)
    + BulletList(report.issues.GetOr([]), NoIssuesBullet)
    + FixesHeader
    + BulletList(report.recommendations.GetOr([]), NoRecommendationsBullet)
    + Requirements
  }

  /** Where the first five of nine concatenated sections start. */
  lemma {:induction false} SectionsOccur(a: string, b: string, c: string, d: string, e: string,
                                         f: string, g: string, h: string, i: string)
    ensures OccursAt(a + b + c + d + e + f + g + h + i, a, 0)
    ensures OccursAt(a + b + c + d + e + f + g + h + i, b, |a|)
    ensures OccursAt(a + b + c + d + e + f + g + h + i, c, |a| + |b|)
    ensures OccursAt(a + b + c + d + e + f + g + h + i, d, |a| + |b| + |c|)
    ensures OccursAt(a + b + c + d + e + f + g + h + i, e, |a| + |b| + |c| + |d|)
  {
  }

  /**
   * The prompt opens with the fixed code header, followed by the code
   * verbatim, then the findings header, then the upper-cased severity and
   * the end of the findings header line.
   */
  lemma PromptEmbedsCodeAndSeverity(solidityCode: string, report: AuditReport)
    ensures OccursAt(RefinementTaskDescription(solidityCode, report), CodeHeader, 0)
    ensures OccursAt(RefinementTaskDescription(solidityCode, report), solidityCode, |CodeHeader|)
    ensures OccursAt(RefinementTaskDescription(solidityCode, report), FindingsHeader, |CodeHeader| + |solidityCode|)
    ensures OccursAt(RefinementTaskDescription(solidityCode, report), SeverityBanner(report),
                     |CodeHeader| + |solidityCode| + |FindingsHeader|)
    ensures OccursAt(RefinementTaskDescription(solidityCode, report), FindingsHeaderEnd,
                     |CodeHeader| + |solidityCode| + |FindingsHeader| + |SeverityBanner(report)|)
  {
    SectionsOccur(CodeHeader, solidityCode, FindingsHeader, SeverityBanner(report), FindingsHeaderEnd,
                  BulletList(report.issues.GetOr([]), NoIssuesBullet), FixesHeader,
                  BulletList(report.recommendations.GetOr([]), NoRecommendationsBullet), Requirements);
  }

  /** Where the sixth, seventh and eighth of nine concatenated sections start. */
  lemma {:induction false} LaterSectionsOccur(a: string, b: string, c: string, d: string, e: string,
                                              f: string, g: string, h: string, i: string)
    ensures OccursAt(a + b + c + d + e + f + g + h + i, f, |a + b + c + d + e|)
    ensures OccursAt(a + b + c + d + e + f + g + h + i, g, |a + b + c + d + e| + |f|)
    ensures OccursAt(a + b + c + d + e + f + g + h + i, h, |a + b + c + d + e| + |f| + |g|)
  {
  }

  /**
   * The issue bullets follow the findings header line, then comes the fixes
   * header, and the recommendation bullets follow it.
   */
  lemma PromptEmbedsBulletLists(solidityCode: string, report: AuditReport)
    ensures OccursAt(RefinementTaskDescription(solidityCode, report),
                     BulletList(report.issues.GetOr([]), NoIssuesBullet),
                     |PromptHead(solidityCode, report)|)
    ensures OccursAt(RefinementTaskDescription(solidityCode, report), FixesHeader,
                     |PromptHead(solidityCode, report)| + |BulletList(report.issues.GetOr([]), NoIssuesBullet)|)
    ensures OccursAt(RefinementTaskDescription(solidityCode, report),
                     BulletList(report.recommendations.GetOr([]), NoRecommendationsBullet),
                     |PromptHead(solidityCode, report)| + |BulletList(report.issues.GetOr([]), NoIssuesBullet)| + |FixesHeader|)
  {
    LaterSectionsOccur(CodeHeader, solidityCode, FindingsHeader, SeverityBanner(report), FindingsHeaderEnd,
                       BulletList(report.issues.GetOr([]), NoIssuesBullet), FixesHeader,
                       BulletList(report.recommendations.GetOr([]), NoRecommendationsBullet), Requirements);
  }

  /** Without a severity key the header shows `UNKNOWN`. */
  lemma MissingSeverityShownUnknown(report: AuditReport)
    requires report.severityLevel.None?
    ensures SeverityBanner(report) == "UNKNOWN"
  {
  }
}
