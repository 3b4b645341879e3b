/**
 * The text report of a validation result (validate and check commands):
 * one status line per phase attempted, the errors and the warnings with
 * their location and fix, then a one-line summary. Lines are values of
 * `Line`; colours and the exact wording are not modelled.
 */
module Report {
  import opened Wrappers

  datatype Level = Hard | Soft

  /** A finding of the validator. */
  datatype ValidationError = ValidationError(
    code: string,
    message: string,
    phase: int,
    level: Level,
    location: Option<string>,
    suggestion: Option<string>)

  /** What the validator returns: verdict, highest phase attempted, errors and warnings. */
  datatype ValidationResult = ValidationResult(
    ok: bool,
    phase: int,
    errors: seq<ValidationError>,
    warnings: seq<ValidationError>)

  datatype Status = Passed | Failed | PassedWithWarnings

  const Cross: char := '\U{2717}'
  const WarningSign: char := '\U{26A0}'

  datatype Line =
    | Blank
    | PhaseLine(phase: int, name: string, status: Status)
    | ErrorsHeading
    | WarningsHeading
    | Issue(icon: char, code: string, message: string)
    | At(location: string)
    | Fix(suggestion: string)
    | Successful
    | PassedWithWarningCount(warnings: nat)
    | FailedWithErrorCount(errors: nat)

  /** Display names indexed by phase; index 0 is unused. */
  const PhaseNames: seq<string> :=
    ["", "Structural", "Referential", "Semantic", "Evolution", "Generation", "Verifiability"]

  /** `phaseNames[phase]` as a template literal shows it: "undefined" past the table. */
  function PhaseName(p: int): string
  {
    if 0 <= p < |PhaseNames| then PhaseNames[p] else "undefined"
  }

  /** The findings tagged with phase `p`, in order. */
  function InPhase(es: seq<ValidationError>, p: int): (r: seq<ValidationError>)
    ensures forall k :: 0 <= k < |r| ==> r[k].phase == p && r[k] in es
    ensures |r| > 0 <==> exists e :: e in es && e.phase == p
    decreases |es|
  {
    if |es| == 0 then []
    else
      var rest := InPhase(es[1..], p);
      assert forall e :: e in es[1..] ==> e in es;
      assert es == [es[0]] + es[1..];
      if es[0].phase == p then [es[0]] + rest else rest
  }

  /** The status shown for phase `p`. */
  function StatusOf(result: ValidationResult, p: int): (s: Status)
    ensures s == Failed <==> exists e :: e in result.errors && e.phase == p
    ensures s == Passed <==>
      (forall e :: e in result.errors ==> e.phase != p) && (forall w :: w in result.warnings ==> w.phase != p)
    ensures s == PassedWithWarnings <==>
      (forall e :: e in result.errors ==> e.phase != p) && (exists w :: w in result.warnings && w.phase == p)
  {
    var phaseErrors := InPhase(result.errors, p);
    var phaseWarnings := InPhase(result.warnings, p);
    if |phaseErrors| == 0 && |phaseWarnings| == 0 then Passed
    else if |phaseErrors| > 0 then Failed
    else PassedWithWarnings
  }

  function Icon(level: Level): char
  {
    if level == Hard then Cross else WarningSign
  }

  /** printError: the headline, then the location and the fix when they are non-empty. */
  function ErrorLines(e: ValidationError): (lines: seq<Line>)
    ensures |lines| == 1 + (if Truthy(e.location) then 1 else 0) + (if Truthy(e.suggestion) then 1 else 0)
    ensures lines[0].Issue? && lines[0].code == e.code && lines[0].message == e.message
    ensures lines[0].icon == Cross <==> e.level == Hard
    ensures lines[0].icon == WarningSign <==> e.level == Soft
    ensures Truthy(e.location) ==> lines[1] == At(e.location.value)
    ensures Truthy(e.suggestion) ==> lines[|lines| - 1] == Fix(e.suggestion.value)
    ensures forall k :: 1 <= k < |lines| ==> !lines[k].Issue?
  {
    [Issue(Icon(e.level), e.code, e.message)]
    + (if Truthy(e.location) then [At(e.location.value)] else [])
    + (if Truthy(e.suggestion) then [Fix(e.suggestion.value)] else [])
  }

  /** The lines of a list of findings, each finding's lines in order. */
  function IssueLines(es: seq<ValidationError>): seq<Line>
    decreases |es|
  {
    if |es| == 0 then [] else IssueLines(es[..|es| - 1]) + ErrorLines(es[|es| - 1])
  }

  /** A block of findings under a heading; nothing at all when there are none. */
  function Section(heading: Line, es: seq<ValidationError>): seq<Line>
  {
    if |es| == 0 then [] else [heading] + IssueLines(es) + [Blank]
  }

  /** One status line per phase from 1 to the highest attempted. */
  function StatusLines(result: ValidationResult): seq<Line>
  {
    var n := if result.phase < 0 then 0 else result.phase;
    seq(n, k requires 0 <= k < n => PhaseLine(k + 1, PhaseName(k + 1), StatusOf(result, k + 1)))
  }

  /** The closing line: success, success with the warning count, or failure with the error count. */
  function Summary(result: ValidationResult): (line: Line)
    ensures line == Successful <==> result.ok && |result.warnings| == 0
    ensures line.PassedWithWarningCount? <==> result.ok && |result.warnings| > 0
    ensures line.FailedWithErrorCount? <==> !result.ok
    ensures line.PassedWithWarningCount? ==> line.warnings == |result.warnings|
    ensures line.FailedWithErrorCount? ==> line.errors == |result.errors|
  {
    if result.ok then
      if |result.warnings| > 0 then PassedWithWarningCount(|result.warnings|) else Successful
    else FailedWithErrorCount(|result.errors|)
  }

  /** The whole report; `quiet` drops the status block. */
  function ResultLines(result: ValidationResult, quiet: bool): seq<Line>
  {
    (if quiet then [] else [Blank] + StatusLines(result) + [Blank])
    + Section(ErrorsHeading, result.errors)
    + Section(WarningsHeading, result.warnings)
    + [Summary(result)]
  }

  /** printValidationResult. */
  method PrintValidationResult(result: ValidationResult, quiet: bool) returns (lines: seq<Line>)
    ensures lines == ResultLines(result, quiet)
  {
    lines := [];
    if !quiet {
      var statusLines := PrintPhaseStatuses(result);
      lines := [Blank] + statusLines + [Blank];
    }
    var errorLines := PrintSection(ErrorsHeading, result.errors);
    var warningLines := PrintSection(WarningsHeading, result.warnings);
    lines := lines + errorLines + warningLines + [Summary(result)];
  }

  /** The status block of printValidationResult: one line per phase from 1 up to the highest attempted. */
  method PrintPhaseStatuses(result: ValidationResult) returns (lines: seq<Line>)
    ensures lines == StatusLines(result)
  {
    lines := [];
    var last := if result.phase < 0 then 0 else result.phase;
    for phase := 1 to last + 1
      invariant lines == StatusLines(result)[..phase - 1]
    {
      assert StatusLines(result)[..phase] == StatusLines(result)[..phase - 1] + [StatusLines(result)[phase - 1]];
      lines := lines + [PhaseLine(phase, PhaseName(phase), StatusOf(result, phase))];
    }
    assert StatusLines(result)[..last] == StatusLines(result);
  }

  /** The error or warning block of printValidationResult: the heading, printError for each, a blank line. */
  method PrintSection(heading: Line, es: seq<ValidationError>) returns (lines: seq<Line>)
    ensures lines == Section(heading, es)
  {
    lines := [];
    if |es| > 0 {
      lines := [heading];
      for i := 0 to |es|
        invariant lines == [heading] + IssueLines(es[..i])
      {
        assert es[..i + 1][..i] == es[..i];
        lines := lines + ErrorLines(es[i]);
      }
      assert es[..|es|] == es;
      lines := lines + [Blank];
    }
  }

  /** The headlines of a list of lines. */
  function Headlines(lines: seq<Line>): seq<Line>
    decreases |lines|
  {
    if |lines| == 0 then []
    else if lines[0].Issue? then [lines[0]] + Headlines(lines[1..])
    else Headlines(lines[1..])
  }

  lemma {:induction false} HeadlinesAppend(a: seq<Line>, b: seq<Line>)
    ensures Headlines(a + b) == Headlines(a) + Headlines(b)
    decreases |a|
  {
    if |a| > 0 {
      HeadlinesAppend(a[1..], b);
      assert (a + b)[1..] == a[1..] + b;
    } else {
      assert a + b == b;
    }
  }

  lemma {:induction false} HeadlineOfError(e: ValidationError)
    ensures Headlines(ErrorLines(e)) == [ErrorLines(e)[0]]
  {
    var lines := ErrorLines(e);
    var tail := lines[1..];
    assert forall k :: 0 <= k < |tail| ==> !tail[k].Issue?;
    NoHeadlines(tail);
  }

  lemma {:induction false} NoHeadlines(lines: seq<Line>)
    requires forall k :: 0 <= k < |lines| ==> !lines[k].Issue?
    ensures Headlines(lines) == []
    decreases |lines|
  {
    if |lines| > 0 {
      NoHeadlines(lines[1..]);
    }
  }

  /** The headline a finding is announced by: the icon of its level, its code and its message. */
  function Headline(e: ValidationError): Line
  {
    Issue(Icon(e.level), e.code, e.message)
  }

  /** The headlines of a list of findings, one each, in order. */
  function FindingHeadlines(es: seq<ValidationError>): seq<Line>
  {
    seq(|es|, k requires 0 <= k < |es| => Headline(es[k]))
  }

  /** Each finding contributes exactly one headline, in the order of the findings, with the icon of its level. */
  lemma {:induction false} OneHeadlinePerFinding(es: seq<ValidationError>)
    ensures Headlines(IssueLines(es)) == FindingHeadlines(es)
    decreases |es|
  {
    if |es| > 0 {
      var init := es[..|es| - 1];
      OneHeadlinePerFinding(init);
      HeadlinesAppend(IssueLines(init), ErrorLines(es[|es| - 1]));
      HeadlineOfError(es[|es| - 1]);
    }
  }

  /** The report shows exactly one headline per error and then one per warning, each in order. */
  lemma ReportHeadlines(result: ValidationResult, quiet: bool)
    ensures Headlines(ResultLines(result, quiet)) == FindingHeadlines(result.errors) + FindingHeadlines(result.warnings)
  {
    var status := if quiet then [] else [Blank] + StatusLines(result) + [Blank];
    var errs := Section(ErrorsHeading, result.errors);
    var warns := Section(WarningsHeading, result.warnings);
    assert ResultLines(result, quiet) == (status + errs + warns) + [Summary(result)];
    HeadlinesAppend(status + errs + warns, [Summary(result)]);
    NoHeadlines([Summary(result)]);
    HeadlinesAppend(status + errs, warns);
    SectionHeadlines(WarningsHeading, result.warnings);
    HeadlinesAppend(status, errs);
    SectionHeadlines(ErrorsHeading, result.errors);
    forall k | 0 <= k < |status| ensures !status[k].Issue? {
    }
    NoHeadlines(status);
    assert Headlines(status + errs) == FindingHeadlines(result.errors);
  }

  lemma SectionHeadlines(heading: Line, es: seq<ValidationError>)
    requires !heading.Issue?
    ensures Headlines(Section(heading, es)) == FindingHeadlines(es)
  {
    if |es| > 0 {
      HeadlinesAppend([heading] + IssueLines(es), [Blank]);
      HeadlinesAppend([heading], IssueLines(es));
      NoHeadlines([heading]);
      NoHeadlines([Blank]);
      OneHeadlinePerFinding(es);
    }
  }
}
