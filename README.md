# EvoSpec CLI core, modelled in Dafny

EvoSpec is a YAML dialect for specifying software systems; its command-line
tool validates specification files, writes a starter file (`init`) and asks
an LLM-driven engine to evolve a specification (`evolve`). This project
models the logic of that tool's command layer and proves properties of it:

- **Phases** (`phases.dfy`): `parsePhases`, which reads the `--phase` option
  of `validate` ("a-b" is a range, anything else a comma list) and keeps the
  six validation phases 1 (Structural) to 6 (Verifiability). The range
  branch is a counting loop (`ParsePhases`), proved equal to the pure
  definition `PhasesOf`; the lemmas state what a range and a list select.
- **Report** (`report.dfy`): the text report `printValidationResult` and
  `printError` produce for a validation result, as a list of `Line` values:
  one status line per phase attempted (passed, failed, passed with
  warnings), the error and warning blocks with location and fix lines, and
  the summary.
- **Template** (`template.dfy`): `generateTemplate` for `init`: the project
  id expression (`toLowerCase` then every character outside `[a-z0-9]`
  becomes a dot) and the starter document as a structured value: its
  version ledger and node references.
- **Evolve** (`evolve.dfy`): the `evolve` command's action as a method that
  returns the trace of effects it performs and its exit code. The spec-file
  search, configuration loader, API-key step, engine, file write and git
  adapter calls are inputs (`World`), each of which returns a value or
  throws; `path.resolve` is a plain function and the file system a set of
  existing paths.
  The contracts cover the early exits, the request handed to the engine,
  the dry run, the output path, the git gates and the add → commit → tag
  order, git failures downgraded to a warning, and the failure listing.
- **Text**, **Numbers**, **Wrappers**: `String.prototype.split`/`join` on
  one character, JavaScript's `Number(token)` and `parseInt(s, 10)` on
  decimal text (with NaN), and JavaScript truthiness of optional strings.

Behaviour kept from the code as written:

- In a range, `Number("")` is 0, so "-3" selects 1 to 3.
- Parts after the second in "1-3-5" are ignored.
- A non-numeric bound gives NaN and an empty selection.
- An empty `location`, `suggestion` or `--output` counts as absent.
- Past phase 6 the phase name shows as "undefined".
- In `evolve`, a throw from the spec-file search (when no argument is
  given) reaches the outer handler: exit 1 before any configuration call.
- In `evolve`, a throw from the git-availability or repository probe
  escapes to the outer handler, so the action exits 1 although the file was
  already written. Add, commit and tag failures only warn and exit 0.

## Model

| member | source | states |
|---|---|---|
| Text.Split | cli/src/index.ts:118 | `split` on one character: at least one part, no part contains the separator, more than one part exactly when the separator occurs |
| Text.JoinSplit | cli/src/index.ts:118 | joining the parts of a split with the separator gives back the string |
| Text.SplitJoin | cli/src/index.ts:128 | splitting a join of separator-free parts gives back the parts |
| Numbers.DigitPrefix | cli/src/commands/evolve.ts:83 | the prefix `parseInt` reads is the longest all-digit prefix of the string |
| Numbers.ToNumber | cli/src/index.ts:118 | `Number` of a token is a number exactly when every character is a digit; the empty token is 0; numbers read are never negative |
| Numbers.ParseInt | cli/src/commands/evolve.ts:83 | `parseInt` gives a number exactly when the text starts with a digit, and then it is `Number` of the leading digits |
| Numbers.DoubleIncrement | cli/src/index.ts:120 | `i++` on a JavaScript number at or below 2^53: one more below 2^53, unchanged at 2^53 |
| Numbers.DecimalValueOfDecimal | cli/src/index.ts:118 | reading a number's decimal rendering gives back the number |
| Numbers.ToNumberOfDecimal | cli/src/index.ts:118 | `Number` of a decimal rendering is that number |
| Numbers.ParseIntOfDecimal | cli/src/commands/evolve.ts:83 | `parseInt` of a decimal rendering followed by a non-digit is that number |
| Numbers.ParseIntAgreesWithNumber | cli/src/commands/evolve.ts:83 | on non-empty all-digit text `parseInt` and `Number` agree |
| Phases.Interval | cli/src/index.ts:119-124 | the integers from lo to hi: length hi-lo+1 (or 0) and element k is lo+k |
| Phases.ClampedRange | cli/src/index.ts:117-125 | the range branch yields only phases 1..6, strictly increasing |
| Phases.KeepPhases | cli/src/index.ts:128 | the filter keeps only phases, each phase exactly as often as the list has it, never more elements than given |
| Phases.KeepPhasesAppend | cli/src/index.ts:128 | the filter keeps the list's order: filtering a concatenation is filtering each part, one after the other |
| Phases.ToNumbers | cli/src/index.ts:118 | `map(Number)`: one number per token, element k is `Number` of token k |
| Phases.RangeBounds | cli/src/index.ts:118 | the two bounds of "a-b" split off and read back as a and b |
| Phases.PhasesOf | cli/src/index.ts:116-129 | every selected phase lies in 1..6; a range selection is strictly increasing |
| Phases.ParsePhases | cli/src/index.ts:116-129 | the counting loop of the range branch and the comma branch select exactly `PhasesOf` |
| Phases.IntervalStep | cli/src/index.ts:120-124 | one loop turn appends the counter exactly when it is a phase |
| Phases.CounterAfter | cli/src/index.ts:120 | the loop counter after any number of `i++` steps from a start at or below 2^53 stays at or below 2^53 |
| Phases.AsWrittenRangeNeverEnds | cli/src/index.ts:117-124 | for "1-9007199254740992" the bounds read 1 and 2^53, and after every number of turns the loop test `i <= end` still holds |
| Phases.RangeSelectsClampedInterval | cli/src/index.ts:117-125 | "a-b" selects exactly max(a,1) to min(b,6), ascending |
| Phases.ReversedRangeIsEmpty | cli/src/index.ts:120 | a range whose start exceeds its end selects nothing |
| Phases.CommaListKeepsPhases | cli/src/index.ts:128 | a comma list selects the listed numbers that are phases, in order, duplicates kept |
| Phases.DefaultSelectsAllPhases | cli/src/index.ts:28 | the default "1-6" selects [1,2,3,4,5,6] |
| Phases.CheckIsFirstThreePhases | cli/src/index.ts:101 | `check` validates exactly what "1-3" selects, [1,2,3] |
| Report.InPhase | cli/src/index.ts:145-146 | the filter keeps findings of that phase only, and is non-empty exactly when some finding has it |
| Report.StatusOf | cli/src/index.ts:148-154 | failed iff an error has the phase; passed iff no error and no warning has it; passed with warnings iff no error but a warning has it |
| Report.ErrorLines | cli/src/index.ts:189-200 | one line, plus one for a location, plus one for a suggestion; the cross icon exactly for hard, the warning sign exactly for soft; location line second, fix line last |
| Report.PrintPhaseStatuses | cli/src/index.ts:144-155 | the loop emits one status line per phase from 1 to the highest attempted, in order |
| Report.PrintSection | cli/src/index.ts:159-175 | the heading, each finding's lines in order and a blank line; nothing when there are no findings |
| Report.PrintValidationResult | cli/src/index.ts:131-187 | the whole report: status block unless quiet, errors, warnings, summary |
| Report.Summary | cli/src/index.ts:177-186 | success exactly when ok without warnings; passed with the warning count exactly when ok with warnings; failed with the error count exactly when not ok |
| Report.OneHeadlinePerFinding | cli/src/index.ts:162-164 | each finding contributes exactly one headline, in order, with its level's icon, code and message |
| Report.SectionHeadlines | cli/src/index.ts:160-166 | a block's headlines are exactly its findings' headlines |
| Report.ReportHeadlines | cli/src/index.ts:159-175 | the report's headlines are those of every error, then those of every warning |
| Template.ToLower | cli/src/index.ts:209 | lower-casing keeps the length |
| Template.DotNonIdChars | cli/src/index.ts:209 | the replacement keeps the length and leaves only `[a-z0-9.]` |
| Template.ProjectId | cli/src/index.ts:209 | the id has the name's length and only `[a-z0-9.]` |
| Template.ProjectIdAt | cli/src/index.ts:209 | character k of the id is the lowered character k of the name if that is a letter or digit, else a dot |
| Template.ProjectIdIdempotent | cli/src/index.ts:209 | sanitising an id again changes nothing |
| Template.GenerateTemplate | cli/src/index.ts:202-267 | the id is the sanitised name and the name is kept; current version "1.0.0"; one history entry, based on nothing and at the current version; every node reference resolves |
| Evolve.BumpArgument | cli/src/commands/evolve.ts:73-75 | the bump is undefined exactly for `--no-bump`; any other value passes unchanged, so the default reaches the engine as "minor" |
| Evolve.SpecFileOf | cli/src/commands/evolve.ts:44 | a non-empty argument is resolved; otherwise the search result is used, and a throwing search gives none |
| Evolve.ProviderFor | cli/src/commands/evolve.ts:58 | `--provider` when given (even empty, as `??` keeps it), otherwise the configured provider |
| Evolve.OutputPath | cli/src/commands/evolve.ts:108 | `--output` when given and non-empty, otherwise the spec file |
| Evolve.RequestFor | cli/src/commands/evolve.ts:73-83 | the bump is undefined exactly for `--no-bump`; the default `--max-retries` reaches the engine as 3 |
| Evolve.GitPlan | cli/src/commands/evolve.ts:124-131 | the planned git calls are two or three, all git calls |
| Evolve.GitOutcome | cli/src/commands/evolve.ts:123-135 | the git block's effects start with the add and are at most the plan plus one warning |
| Evolve.GitOutcomeFollowsPlan | cli/src/commands/evolve.ts:123-135 | the block starts with add, makes a prefix of add → commit → tag, commits iff add returned, tags iff add and commit returned and a tag is due, ends with a warning iff a call threw |
| Evolve.GitSequence | cli/src/commands/evolve.ts:123-135 | the try block makes the plan's calls up to the first throw and turns that throw into a warning |
| Evolve.ErrorReports | cli/src/commands/evolve.ts:143-148 | the listing holds only code-and-message and location lines |
| Evolve.FailureReport | cli/src/commands/evolve.ts:140-149 | the failure output starts with the failure message and holds only listing lines |
| Evolve.ReportFailure | cli/src/commands/evolve.ts:139-151 | the loop produces the failure listing |
| Evolve.EachErrorReportedOnce | cli/src/commands/evolve.ts:143-144 | every error of the result is listed once, in order, with its code and message |
| Evolve.ErrorReport | cli/src/commands/evolve.ts:144-147 | one error's listing is its code and message, followed by one location line exactly when the location is non-empty |
| Evolve.EachLocationReported | cli/src/commands/evolve.ts:143-147 | the listing's location lines are exactly those of the errors with a non-empty location, in order |
| Evolve.Save | cli/src/commands/evolve.ts:107-137 | the effects are exactly `SaveTrace`: the write, then each probe until one throws or says no, then the git block behind the three gates; exit 0 iff the write and the git probes do not throw; a git warning never fails |
| Evolve.SaveTraceWritesFirst | cli/src/commands/evolve.ts:109-135 | the write comes first and once, and only write, probe, git, warning and fatal effects follow |
| Evolve.SaveTraceKeepsGates | cli/src/commands/evolve.ts:116-135 | git calls only when the write and both probes returned true and auto-commit is on, and then in plan order; a warning only after returned probes |
| Evolve.UngatedSaveTrace | cli/src/commands/evolve.ts:116-122 | short of the three gates only probes and at most a fatal throw follow the write |
| Evolve.Conclude | cli/src/commands/evolve.ts:100-151 | the effects are exactly `ConcludeTrace`: the failure listing, the dry-run display, or saving to the output path; an unsuccessful result exits 1; a dry run neither writes nor touches git |
| Evolve.RunEngine | cli/src/commands/evolve.ts:77-155 | the effects are exactly `EngineTrace`: the engine call with the mapped request, then a fatal throw or the handling of its result, with the outcome, write and git guarantees of that handling |
| Evolve.EngineThrows | cli/src/commands/evolve.ts:77-155 | a throwing engine call ends the run with exit 1 and no write or git call |
| Evolve.EngineConcludes | cli/src/commands/evolve.ts:77-151 | the engine call followed by the handling of its result keeps every guarantee of that handling |
| Evolve.EvolveFrom | cli/src/commands/evolve.ts:57-155 | the effects are exactly `ConfiguredTrace`: configuration loaded first; a throw or a cancellation exits 1 with no engine call, write or git call; otherwise the API key for the chosen provider and the engine run |
| Evolve.ReadyRun | cli/src/commands/evolve.ts:57-77 | with the configuration ready, the two set-up steps followed by an engine run make a configured run |
| Evolve.ConfiguredOutcome | cli/src/commands/evolve.ts:57-155 | exit 0 iff the configuration is ready and the run concludes normally; an unsuccessful result ends the trace with its listing |
| Evolve.ConfiguredCalls | cli/src/commands/evolve.ts:77-109 | the engine gets the mapped request; a dry run neither writes nor touches git; only a successful result is written, to the output path |
| Evolve.ConfiguredGit | cli/src/commands/evolve.ts:109-135 | git calls follow the write, pass the three gates and keep plan order; a git warning means exit 0 |
| Evolve.Evolve | cli/src/commands/evolve.ts:42-157 | the effects are exactly `EvolveTrace`; a throwing search, no spec file or a missing one exits 1 before any configuration call; exit 0 iff it ends normally; plus the request, dry-run, write, git and failure guarantees above |
| Evolve.EvolveTraceStarts | cli/src/commands/evolve.ts:44-83 | once the spec file is located the configuration is loaded first, once it loads the API key for the chosen provider is asked for, and once both are ready the engine gets the mapped request |
| Evolve.EngineReached | cli/src/commands/evolve.ts:57-77 | once the spec file is located and the configuration is ready, the action is the two set-up steps followed by the engine run |
| Evolve.EvolveTraceEnds | cli/src/commands/evolve.ts:100-135 | a successful result is shown on a dry run and written to the output path otherwise, and behind the three gates the whole git block follows the two probes |

## Left out

- The generation engine (repair loop, retry budget, version bump), the validator, the configuration loader, the API-key setup and the git adapter live in modules that are not part of this model. Their answers are inputs (`World`, `ValidationResult`).
- The `validate` and `check` actions themselves are not modelled: path resolution, file reads, the JSON output format and the exit code `result.ok ? 0 : 1`. Only the phase selection and the text report they use are.
- The starter file's naming, its exists check and its write in `init` are not modelled. The template is a structured value, not YAML text.
- The text of the console messages, colours, the spinner, `--verbose` progress and the success lines (version, attempts, output path, the 7-character commit hash and the tag name) are not modelled. `process.exit` is the returned code.
- Non-`Error` throws, which print "Failed" or "Unknown error", are not modelled: every throw carries a message.
- `path.resolve` is a supplied function, and the file system is a set of existing paths.
- `createGit(process.cwd())` is not modelled: it is taken never to throw. In the source a throw there would end the action with exit 1 after the write and the git probe.
- Numbers.ToNumber: models `Number` on decimal digits only; whitespace, signs, fractions such as "2.5", hexadecimal, binary ("0b1"), octal ("0o6"), exponents and Infinity all give NaN here, so `--phase 0b1,0o6` selects [1,6] in JavaScript and nothing here. The value is the exact integer: above 2^53 a JavaScript number rounds to the nearest double, and past about 1.8e308 it is Infinity.
- Numbers.ParseInt: no leading whitespace or sign handling; the value is exact where JavaScript rounds above 2^53.
- Numbers.ToNumberOfDecimal: holds for every n in the model; in JavaScript only up to 2^53, beyond which `Number` rounds.
- Numbers.ParseIntOfDecimal: holds for every n in the model; in JavaScript only up to 2^53, beyond which `parseInt` rounds.
- Phases.ParsePhases: counts with exact integers. In JavaScript a range whose start is at most 2^53 and whose end is 2^53 or more never ends, because `i++` stops changing the counter at 2^53 (see Findings); the model states the intended result instead.
- Phases.RangeBounds: holds in JavaScript only for bounds up to 2^53; above that `Number` rounds the bound, so "1-9007199254740993" reads its end as 2^53 and the source loop never returns.
- Phases.RangeSelectsClampedInterval: holds in JavaScript only for bounds below 2^53; for a larger end the source loop never returns (see Findings).
- Phases.ReversedRangeIsEmpty: holds in JavaScript only for bounds below 2^53; "9007199254740993-9007199254740992" reads both bounds as 2^53 and never returns.
- Template.ToLower: lower-cases ASCII letters only. JavaScript's `toLowerCase` maps the Kelvin sign U+212A to "k" and U+0130 to two characters, so the length contract is stated for this ASCII lowering.
- Template.DotNonIdChars: works per Unicode character; the source's regular expression has no `u` flag and works per UTF-16 unit, so a character outside the Basic Multilingual Plane ("a😀") becomes two dots there ("a..") and one here ("a.").
- Template.ProjectId: inherits both gaps above: ASCII-only lowering, and one dot per character where JavaScript writes one per UTF-16 unit.
- generate.ts, init.ts and the website are not part of this model.

## Findings

| source | as written | input that shows it | evidently intended | confidence | as-written member | corrected member |
|---|---|---|---|---|---|---|
| cli/src/index.ts:120 | `for (let i = start; i <= end; i++)` counts with JavaScript numbers, and `i++` leaves 2^53 unchanged | `--phase 1-9007199254740992` | the phases max(start,1) to min(end,6), here [1,2,3,4,5,6], as `Phases.RangeSelectsClampedInterval` proves | not executed | Phases.AsWrittenRangeNeverEnds | Phases.ParsePhases |
