/**
 * The `evolve` command's action: locate the spec file, load the
 * configuration and API key, run the evolution engine, then either show
 * the result (dry run) or write it and, best-effort, add, commit and tag
 * it in git. The spec-file search and every awaited call to the outside
 * are inputs (`World`) that return a value or throw; the action returns
 * the effects it performed, in order, and its exit code.
 */
module Evolve {
  import opened Wrappers
  import opened Numbers
  import Report

  /** The value commander gives `--bump`: a type name, or a flag (false for `--no-bump`). */
  datatype BumpOption = BumpFlag(enabled: bool) | BumpType(name: string)

  const DefaultBump := BumpType("minor")
  const DefaultMaxRetries := "3"

  /** The bump passed to the engine: undefined for `--no-bump`, the option unchanged otherwise. */
  function BumpArgument(bump: BumpOption): (r: Option<BumpOption>)
    ensures r.None? <==> bump == BumpFlag(false)
    ensures r.Some? ==> r.value == bump
    ensures bump == DefaultBump ==> r == Some(BumpType("minor"))
  {
    if bump == BumpFlag(false) then None else Some(bump)
  }

  datatype Options = Options(
    change: string,
    output: Option<string>,
    bump: BumpOption,
    provider: Option<string>,
    model: Option<string>,
    maxRetries: string,
    dryRun: bool)

  datatype Versioning = Versioning(autoCommit: bool, autoTag: bool, tagPrefix: string)
  datatype Config = Config(provider: string, versioning: Versioning)

  /** What the API-key step hands back: the (possibly updated) configuration, or a cancellation. */
  datatype Setup = Setup(config: Config, cancelled: bool)

  /** The engine's answer. */
  datatype GenerationResult = GenerationResult(
    success: bool,
    yaml: Option<string>,
    attempts: int,
    errors: Option<seq<Report.ValidationError>>,
    previousVersion: Option<string>,
    newVersion: Option<string>)

  /** The request handed to the engine. */
  datatype Request = Request(
    specFile: string,
    change: string,
    bump: Option<BumpOption>,
    provider: Option<string>,
    model: Option<string>,
    maxRetries: JsNumber)

  /** The outcome of one awaited call: a value, or a thrown error with its message. */
  datatype Call<T> = Returns(value: T) | Throws(message: string)

  /** Everything the action learns from outside. */
  datatype World = World(
    resolve: string -> string,
    findSpecFile: Call<Option<string>>,
    existing: set<string>,
    loadConfig: Call<Config>,
    ensureApiKey: Call<Setup>,
    evolveSpec: Call<GenerationResult>,
    write: Call<()>,
    gitAvailable: Call<bool>,
    isRepo: Call<bool>,
    add: Call<()>,
    commit: Call<string>,
    tag: Call<()>)

  /** What the action does to the outside, calls and reports alike. */
  datatype Effect =
    | NoSpecFile
    | SpecNotFound(path: string)
    | LoadConfig
    | EnsureApiKey(provider: string)
    | ApiKeyRequired
    | EvolveSpec(request: Request)
    | ShowDryRun(previousVersion: Option<string>, newVersion: Option<string>, yaml: string)
    | WriteFile(path: string, content: string)
    | CheckGit
    | CheckRepo
    | GitAdd(path: string)
    | GitCommit(message: string)
    | GitTag(name: string, message: string)
    | GitWarning(message: string)
    | EvolutionFailed
    | ValidationErrorsHeading
    | ReportError(code: string, message: string)
    | ReportLocation(location: string)
    | Fatal(message: string)

  predicate IsGitCall(e: Effect)
  {
    e.GitAdd? || e.GitCommit? || e.GitTag?
  }

  /** The search for a spec file runs, because no argument was given, and it throws. */
  predicate SearchThrows(arg: Option<string>, world: World)
  {
    !Truthy(arg) && world.findSpecFile.Throws?
  }

  /**
   * The spec file: the argument resolved when it is non-empty, otherwise
   * whatever the search found; nothing when the search throws.
   */
  function SpecFileOf(arg: Option<string>, world: World): (spec: Option<string>)
    ensures Truthy(arg) ==> spec == Some(world.resolve(arg.value))
    ensures !Truthy(arg) && world.findSpecFile.Returns? ==> spec == world.findSpecFile.value
    ensures SearchThrows(arg, world) ==> spec == None
  {
    if Truthy(arg) then Some(world.resolve(arg.value))
    else if world.findSpecFile.Returns? then world.findSpecFile.value
    else None
  }

  /** `options.output || specFile`. */
  function OutputPath(options: Options, specFile: string): (path: string)
    ensures Truthy(options.output) ==> path == options.output.value
    ensures !Truthy(options.output) ==> path == specFile
  {
    OrElse(options.output, specFile)
  }

  /** The engine request: the bump mapped, `--max-retries` through parseInt, the rest as given. */
  function RequestFor(specFile: string, options: Options): (r: Request)
    ensures r.bump.None? <==> options.bump == BumpFlag(false)
    ensures options.maxRetries == DefaultMaxRetries ==> r.maxRetries == Num(3)
  {
    assert DefaultMaxRetries == Decimal(3) + "" by {
      assert Decimal(3) == "3";
    }
    ParseIntOfDecimal(3, "");
    Request(specFile, options.change, BumpArgument(options.bump), options.provider, options.model,
            ParseInt(options.maxRetries))
  }

  function CommitMessage(change: string): string
  {
    "Evolve spec: " + change
  }

  /** The git calls the action means to make after a write, in order. */
  function GitPlan(outputFile: string, change: string, versioning: Versioning, newVersion: Option<string>): (plan: seq<Effect>)
    ensures 2 <= |plan| <= 3
    ensures forall k :: 0 <= k < |plan| ==> IsGitCall(plan[k])
  {
    [GitAdd(outputFile), GitCommit(CommitMessage(change))]
    + (if versioning.autoTag && Truthy(newVersion)
       then [GitTag(versioning.tagPrefix + newVersion.value, change)] else [])
  }

  /** The git calls among a list of effects, in order. */
  function GitCalls(effects: seq<Effect>): (calls: seq<Effect>)
    ensures forall k :: 0 <= k < |calls| ==> IsGitCall(calls[k])
    decreases |effects|
  {
    if |effects| == 0 then []
    else if IsGitCall(effects[0]) then [effects[0]] + GitCalls(effects[1..])
    else GitCalls(effects[1..])
  }

  lemma {:induction false} GitCallsAppend(a: seq<Effect>, b: seq<Effect>)
    ensures GitCalls(a + b) == GitCalls(a) + GitCalls(b)
    decreases |a|
  {
    if |a| > 0 {
      GitCallsAppend(a[1..], b);
      assert (a + b)[1..] == a[1..] + b;
    } else {
      assert a + b == b;
    }
  }

  lemma {:induction false} NoGitCalls(effects: seq<Effect>)
    requires forall k :: 0 <= k < |effects| ==> !IsGitCall(effects[k])
    ensures GitCalls(effects) == []
    decreases |effects|
  {
    if |effects| > 0 {
      NoGitCalls(effects[1..]);
    }
  }

  lemma {:induction false} OnlyGitCalls(effects: seq<Effect>)
    requires forall k :: 0 <= k < |effects| ==> IsGitCall(effects[k])
    ensures GitCalls(effects) == effects
    decreases |effects|
  {
    if |effects| > 0 {
      OnlyGitCalls(effects[1..]);
      assert [effects[0]] + effects[1..] == effects;
    }
  }

  /** Whether some planned git call throws, once every call before it has returned. */
  predicate GitFails(add: Call<()>, commit: Call<string>, tag: Call<()>, tagging: bool)
  {
    add.Throws? || commit.Throws? || (tagging && tag.Throws?)
  }

  /** The message of the first planned git call that throws. */
  function FailureMessage(add: Call<()>, commit: Call<string>, tag: Call<()>): string
  {
    if add.Throws? then add.message else if commit.Throws? then commit.message
    else if tag.Throws? then tag.message else ""
  }

  /**
   * What the try block around add, commit and tag does: the plan's calls up
   * to and including the first that throws, then that throw as a warning.
   */
  function GitOutcome(outputFile: string, change: string, versioning: Versioning, newVersion: Option<string>,
                      add: Call<()>, commit: Call<string>, tag: Call<()>): (effects: seq<Effect>)
    ensures |effects| >= 1 && effects[0] == GitAdd(outputFile)
    ensures |effects| <= |GitPlan(outputFile, change, versioning, newVersion)| + 1
  {
    var plan := GitPlan(outputFile, change, versioning, newVersion);
    var tagging := versioning.autoTag && Truthy(newVersion);
    var made := if add.Throws? then 1 else if commit.Throws? then 2 else |plan|;
    plan[..made]
    + (if GitFails(add, commit, tag, tagging) then [GitWarning(FailureMessage(add, commit, tag))] else [])
  }

  /**
   * The git block starts with add, calls at most the plan in its order,
   * commits only after add returned, tags only when both returned and a
   * tag is due, and ends with a warning exactly when a call threw.
   */
  lemma GitOutcomeFollowsPlan(outputFile: string, change: string, versioning: Versioning, newVersion: Option<string>,
                              add: Call<()>, commit: Call<string>, tag: Call<()>)
    ensures var effects := GitOutcome(outputFile, change, versioning, newVersion, add, commit, tag);
      && |effects| >= 1 && effects[0] == GitAdd(outputFile)
      && GitCalls(effects) <= GitPlan(outputFile, change, versioning, newVersion)
      && (GitCommit(CommitMessage(change)) in effects <==> add.Returns?)
      && ((exists k :: 0 <= k < |effects| && effects[k].GitTag?)
          <==> add.Returns? && commit.Returns? && versioning.autoTag && Truthy(newVersion))
      && (effects[|effects| - 1].GitWarning? <==> GitFails(add, commit, tag, versioning.autoTag && Truthy(newVersion)))
      && (forall k :: 0 <= k < |effects| - 1 ==> IsGitCall(effects[k]))
      && (forall k :: 0 <= k < |effects| ==> IsGitCall(effects[k]) || effects[k].GitWarning?)
  {
    var plan := GitPlan(outputFile, change, versioning, newVersion);
    var tagging := versioning.autoTag && Truthy(newVersion);
    var effects := GitOutcome(outputFile, change, versioning, newVersion, add, commit, tag);
    var made := if add.Throws? then 1 else if commit.Throws? then 2 else |plan|;
    var calls := plan[..made];
    assert effects[..made] == calls;
    if GitFails(add, commit, tag, tagging) {
      WarnedCalls(calls, FailureMessage(add, commit, tag));
    } else {
      assert effects == calls;
      OnlyGitCalls(calls);
    }
    if tagging && add.Returns? && commit.Returns? {
      assert effects[2].GitTag?;
    }
  }

  /** The try block around add, commit and tag: the first throw ends the block and becomes a warning. */
  method GitSequence(outputFile: string, change: string, versioning: Versioning, newVersion: Option<string>,
                     add: Call<()>, commit: Call<string>, tag: Call<()>)
    returns (effects: seq<Effect>)
    ensures effects == GitOutcome(outputFile, change, versioning, newVersion, add, commit, tag)
  {
    effects := [GitAdd(outputFile)];
    if add.Throws? {
      return effects + [GitWarning(add.message)];
    }
    effects := effects + [GitCommit(CommitMessage(change))];
    if commit.Throws? {
      return effects + [GitWarning(commit.message)];
    }
    if versioning.autoTag && Truthy(newVersion) {
      effects := effects + [GitTag(versioning.tagPrefix + newVersion.value, change)];
      if tag.Throws? {
        return effects + [GitWarning(tag.message)];
      }
    }
  }

  /** A warning after some git calls adds no git call. */
  lemma WarnedCalls(calls: seq<Effect>, message: string)
    requires forall k :: 0 <= k < |calls| ==> IsGitCall(calls[k])
    ensures GitCalls(calls + [GitWarning(message)]) == calls
  {
    GitCallsAppend(calls, [GitWarning(message)]);
    NoGitCalls([GitWarning(message)]);
    OnlyGitCalls(calls);
  }

  /** One failed-run error listing: code and message, then the location when it is non-empty. */
  function ErrorReport(e: Report.ValidationError): (r: seq<Effect>)
    ensures |r| == 1 + (if Truthy(e.location) then 1 else 0)
    ensures r[0] == ReportError(e.code, e.message)
    ensures Truthy(e.location) ==> r[1] == ReportLocation(e.location.value)
  {
    [ReportError(e.code, e.message)] + LocationLine(e)
  }

  /** The location line of one error: present exactly when its location is non-empty. */
  function LocationLine(e: Report.ValidationError): seq<Effect>
  {
    if Truthy(e.location) then [ReportLocation(e.location.value)] else []
  }

  function ErrorReports(es: seq<Report.ValidationError>): (r: seq<Effect>)
    ensures forall k :: 0 <= k < |r| ==> r[k].ReportError? || r[k].ReportLocation?
    decreases |es|
  {
    if |es| == 0 then [] else ErrorReports(es[..|es| - 1]) + ErrorReport(es[|es| - 1])
  }

  /** What a failed run prints before exiting. */
  function FailureReport(errors: Option<seq<Report.ValidationError>>): (r: seq<Effect>)
    ensures |r| >= 1 && r[0] == EvolutionFailed
    ensures forall k :: 0 <= k < |r| ==>
      r[k].EvolutionFailed? || r[k].ValidationErrorsHeading? || r[k].ReportError? || r[k].ReportLocation?
  {
    [EvolutionFailed] + (if errors.Some? then [ValidationErrorsHeading] + ErrorReports(errors.value) else [])
  }

  /** The failure branch of the action: the listing of the engine's last errors. */
  method ReportFailure(errors: Option<seq<Report.ValidationError>>) returns (lines: seq<Effect>)
    ensures lines == FailureReport(errors)
  {
    lines := [EvolutionFailed];
    if errors.Some? {
      var es := errors.value;
      lines := lines + [ValidationErrorsHeading];
      for i := 0 to |es|
        invariant lines == [EvolutionFailed, ValidationErrorsHeading] + ErrorReports(es[..i])
      {
        assert es[..i + 1][..i] == es[..i];
        lines := lines + ErrorReport(es[i]);
      }
      assert es[..|es|] == es;
    }
  }

  /** The reported codes and messages among a list of effects, in order. */
  function Reported(effects: seq<Effect>): seq<Effect>
    decreases |effects|
  {
    if |effects| == 0 then []
    else if effects[0].ReportError? then [effects[0]] + Reported(effects[1..])
    else Reported(effects[1..])
  }

  lemma {:induction false} ReportedAppend(a: seq<Effect>, b: seq<Effect>)
    ensures Reported(a + b) == Reported(a) + Reported(b)
    decreases |a|
  {
    if |a| > 0 {
      ReportedAppend(a[1..], b);
      assert (a + b)[1..] == a[1..] + b;
    } else {
      assert a + b == b;
    }
  }

  /** A failed run lists every error of the engine's result once, in order, with its code and message. */
  lemma {:induction false} EachErrorReportedOnce(es: seq<Report.ValidationError>)
    ensures Reported(ErrorReports(es)) == seq(|es|, k requires 0 <= k < |es| => ReportError(es[k].code, es[k].message))
    decreases |es|
  {
    if |es| > 0 {
      var e := es[|es| - 1];
      EachErrorReportedOnce(es[..|es| - 1]);
      ReportedAppend(ErrorReports(es[..|es| - 1]), ErrorReport(e));
      ReportedAppend([ReportError(e.code, e.message)], LocationLine(e));
    }
  }

  /** The reported locations among a list of effects, in order. */
  function Locations(effects: seq<Effect>): seq<Effect>
    decreases |effects|
  {
    if |effects| == 0 then []
    else if effects[0].ReportLocation? then [effects[0]] + Locations(effects[1..])
    else Locations(effects[1..])
  }

  lemma {:induction false} LocationsAppend(a: seq<Effect>, b: seq<Effect>)
    ensures Locations(a + b) == Locations(a) + Locations(b)
    decreases |a|
  {
    if |a| > 0 {
      LocationsAppend(a[1..], b);
      assert (a + b)[1..] == a[1..] + b;
    } else {
      assert a + b == b;
    }
  }

  /** The location line of every error that has a non-empty location, in the errors' order. */
  function LocationLines(es: seq<Report.ValidationError>): seq<Effect>
    decreases |es|
  {
    if |es| == 0 then []
    else LocationLine(es[0]) + LocationLines(es[1..])
  }

  lemma {:induction false} LocationLinesAppend(es: seq<Report.ValidationError>, e: Report.ValidationError)
    ensures LocationLines(es + [e]) == LocationLines(es) + LocationLine(e)
    decreases |es|
  {
    if |es| == 0 {
      assert es + [e] == [e];
      assert [e][1..] == [];
    } else {
      assert (es + [e])[0] == es[0];
      assert (es + [e])[1..] == es[1..] + [e];
      assert LocationLines(es + [e]) == LocationLine(es[0]) + LocationLines(es[1..] + [e]);
      LocationLinesAppend(es[1..], e);
    }
  }

  /**
   * A failed run lists a location line for exactly the errors that have a
   * non-empty location, in order, and no other.
   */
  lemma {:induction false} EachLocationReported(es: seq<Report.ValidationError>)
    ensures Locations(ErrorReports(es)) == LocationLines(es)
    decreases |es|
  {
    if |es| > 0 {
      var e := es[|es| - 1];
      var init := es[..|es| - 1];
      EachLocationReported(init);
      LocationsAppend(ErrorReports(init), ErrorReport(e));
      LocationsAppend([ReportError(e.code, e.message)], LocationLine(e));
      LocationLinesAppend(init, e);
      assert init + [e] == es;
    }
  }

  /** The engine's result is something to save. */
  predicate Succeeded(r: GenerationResult)
  {
    r.success && Truthy(r.yaml)
  }

  /** The spec file was given or found, and it exists. */
  predicate Located(arg: Option<string>, world: World)
  {
    var spec := SpecFileOf(arg, world);
    Truthy(spec) && spec.value in world.existing
  }

  /** The configuration loads and the API-key step neither throws nor is cancelled. */
  predicate ConfigReady(world: World)
  {
    world.loadConfig.Returns? && world.ensureApiKey.Returns? && !world.ensureApiKey.value.cancelled
  }

  /** The action gets as far as calling the engine. */
  predicate ReachesEngine(arg: Option<string>, world: World)
  {
    Located(arg, world) && ConfigReady(world)
  }

  /**
   * From the engine call on, the action ends without error: the engine
   * succeeded, and on a real run the write and the git probes did not throw.
   * Nothing about add, commit or tag enters here.
   */
  predicate ConcludesNormally(options: Options, world: World)
  {
    && world.evolveSpec.Returns? && Succeeded(world.evolveSpec.value)
    && (options.dryRun
        || (&& world.write.Returns?
            && world.gitAvailable.Returns?
            && (world.gitAvailable.value ==> world.isRepo.Returns?)))
  }

  /** The whole action ends without error. */
  predicate EndsNormally(arg: Option<string>, options: Options, world: World)
  {
    ReachesEngine(arg, world) && ConcludesNormally(options, world)
  }

  /** The effects of saving the evolved document: the write, then the git probes and the git block. */
  predicate SavingEffect(e: Effect)
  {
    e.WriteFile? || e.CheckGit? || e.CheckRepo? || IsGitCall(e) || e.GitWarning? || e.Fatal?
  }

  /**
   * The effects of saving, in order: the write; unless it threw, the git
   * probe; when git is available, the repository probe; when the working
   * tree is a repository and auto-commit is on, the git block. A throw from
   * the write or a probe is fatal.
   */
  function SaveTrace(outputFile: string, yaml: string, change: string, versioning: Versioning,
                     newVersion: Option<string>, world: World): seq<Effect>
  {
    var write := WriteFile(outputFile, yaml);
    if world.write.Throws? then [write, Fatal(world.write.message)]
    else if world.gitAvailable.Throws? then [write, CheckGit, Fatal(world.gitAvailable.message)]
    else if !world.gitAvailable.value then [write, CheckGit]
    else if world.isRepo.Throws? then [write, CheckGit, CheckRepo, Fatal(world.isRepo.message)]
    else if world.isRepo.value && versioning.autoCommit
    then [write, CheckGit, CheckRepo]
         + GitOutcome(outputFile, change, versioning, newVersion, world.add, world.commit, world.tag)
    else [write, CheckGit, CheckRepo]
  }

  /**
   * A real run after a successful result: write the document, then, when
   * git is available, the working tree is a repository and auto-commit is
   * on, run the git block.
   */
  method Save(outputFile: string, yaml: string, change: string, versioning: Versioning, newVersion: Option<string>,
              world: World)
    returns (effects: seq<Effect>, code: int)
    ensures effects == SaveTrace(outputFile, yaml, change, versioning, newVersion, world)
    ensures |effects| >= 1 && effects[0] == WriteFile(outputFile, yaml)
    ensures forall k :: 0 <= k < |effects| ==> SavingEffect(effects[k])
    ensures forall k :: 1 <= k < |effects| ==> !effects[k].WriteFile?
    ensures code == 0 || code == 1
    ensures code == 0 <==>
      world.write.Returns? && world.gitAvailable.Returns? && (world.gitAvailable.value ==> world.isRepo.Returns?)
    ensures (exists k :: 0 <= k < |effects| && IsGitCall(effects[k])) ==>
      && code == 0 && world.gitAvailable.value && world.isRepo.value && versioning.autoCommit
      && GitCalls(effects) <= GitPlan(outputFile, change, versioning, newVersion)
    ensures (exists k :: 0 <= k < |effects| && effects[k].GitWarning?) ==> code == 0
  {
    SaveTraceWritesFirst(outputFile, yaml, change, versioning, newVersion, world);
    SaveTraceKeepsGates(outputFile, yaml, change, versioning, newVersion, world);
    effects := [WriteFile(outputFile, yaml)];
    if world.write.Throws? {
      return effects + [Fatal(world.write.message)], 1;
    }
    effects := effects + [CheckGit];
    if world.gitAvailable.Throws? {
      return effects + [Fatal(world.gitAvailable.message)], 1;
    }
    if world.gitAvailable.value {
      effects := effects + [CheckRepo];
      if world.isRepo.Throws? {
        return effects + [Fatal(world.isRepo.message)], 1;
      }
      if world.isRepo.value && versioning.autoCommit {
        var git := GitSequence(outputFile, change, versioning, newVersion, world.add, world.commit, world.tag);
        effects := effects + git;
      }
    }
    code := 0;
  }

  /** Saving writes once, first, and makes only saving effects. */
  lemma SaveTraceWritesFirst(outputFile: string, yaml: string, change: string, versioning: Versioning,
                             newVersion: Option<string>, world: World)
    ensures var effects := SaveTrace(outputFile, yaml, change, versioning, newVersion, world);
      && |effects| >= 1 && effects[0] == WriteFile(outputFile, yaml)
      && (forall k :: 0 <= k < |effects| ==> SavingEffect(effects[k]))
      && (forall k :: 1 <= k < |effects| ==> !effects[k].WriteFile?)
  {
    var effects := SaveTrace(outputFile, yaml, change, versioning, newVersion, world);
    if world.write.Returns? && world.gitAvailable == Returns(true) && world.isRepo == Returns(true)
       && versioning.autoCommit {
      var probes := [WriteFile(outputFile, yaml), CheckGit, CheckRepo];
      assert effects == probes + GitOutcome(outputFile, change, versioning, newVersion, world.add, world.commit, world.tag);
      ProbedGit(probes, outputFile, change, versioning, newVersion, world.add, world.commit, world.tag);
    } else {
      UngatedSaveTrace(outputFile, yaml, change, versioning, newVersion, world);
    }
  }

  /**
   * Git calls happen only when the write and both probes returned, git is
   * available, the tree is a repository and auto-commit is on, and then in
   * plan order; a warning only follows returned probes.
   */
  lemma SaveTraceKeepsGates(outputFile: string, yaml: string, change: string, versioning: Versioning,
                            newVersion: Option<string>, world: World)
    ensures var effects := SaveTrace(outputFile, yaml, change, versioning, newVersion, world);
      && ((exists k :: 0 <= k < |effects| && IsGitCall(effects[k])) ==>
            && world.write.Returns? && world.gitAvailable == Returns(true) && world.isRepo == Returns(true)
            && versioning.autoCommit
            && GitCalls(effects) <= GitPlan(outputFile, change, versioning, newVersion))
      && ((exists k :: 0 <= k < |effects| && effects[k].GitWarning?) ==>
            world.write.Returns? && world.gitAvailable == Returns(true) && world.isRepo == Returns(true))
  {
    var effects := SaveTrace(outputFile, yaml, change, versioning, newVersion, world);
    if world.write.Returns? && world.gitAvailable == Returns(true) && world.isRepo == Returns(true)
       && versioning.autoCommit {
      var probes := [WriteFile(outputFile, yaml), CheckGit, CheckRepo];
      assert effects == probes + GitOutcome(outputFile, change, versioning, newVersion, world.add, world.commit, world.tag);
      ProbedGit(probes, outputFile, change, versioning, newVersion, world.add, world.commit, world.tag);
    } else {
      UngatedSaveTrace(outputFile, yaml, change, versioning, newVersion, world);
    }
  }

  /** Short of the three gates, saving is the write followed by probes and at most one fatal throw. */
  lemma UngatedSaveTrace(outputFile: string, yaml: string, change: string, versioning: Versioning,
                         newVersion: Option<string>, world: World)
    requires !(world.write.Returns? && world.gitAvailable == Returns(true) && world.isRepo == Returns(true)
               && versioning.autoCommit)
    ensures var effects := SaveTrace(outputFile, yaml, change, versioning, newVersion, world);
      forall k :: 1 <= k < |effects| ==> effects[k].CheckGit? || effects[k].CheckRepo? || effects[k].Fatal?
  {
  }

  /** The git block after the write and the probes adds only git calls and warnings, in plan order. */
  lemma ProbedGit(probes: seq<Effect>, outputFile: string, change: string, versioning: Versioning,
                  newVersion: Option<string>, add: Call<()>, commit: Call<string>, tag: Call<()>)
    requires forall k :: 0 <= k < |probes| ==> !IsGitCall(probes[k])
    ensures var effects := probes + GitOutcome(outputFile, change, versioning, newVersion, add, commit, tag);
      && (forall k :: |probes| <= k < |effects| ==> IsGitCall(effects[k]) || effects[k].GitWarning?)
      && GitCalls(effects) <= GitPlan(outputFile, change, versioning, newVersion)
  {
    var git := GitOutcome(outputFile, change, versioning, newVersion, add, commit, tag);
    GitOutcomeFollowsPlan(outputFile, change, versioning, newVersion, add, commit, tag);
    NoGitCalls(probes);
    GitCallsAppend(probes, git);
    forall k | |probes| <= k < |probes + git| ensures (probes + git)[k] == git[k - |probes|] {
    }
  }

  /** The effects that follow the engine call. */
  predicate ConcludingEffect(e: Effect)
  {
    SavingEffect(e) || e.ShowDryRun?
    || e.EvolutionFailed? || e.ValidationErrorsHeading? || e.ReportError? || e.ReportLocation?
  }

  /** The effects of handling the engine's result: the failure listing, the dry-run display, or saving. */
  function ConcludeTrace(specFile: string, options: Options, versioning: Versioning, result: GenerationResult,
                         world: World): seq<Effect>
  {
    if !Succeeded(result) then FailureReport(result.errors)
    else if options.dryRun then [ShowDryRun(result.previousVersion, result.newVersion, result.yaml.value)]
    else SaveTrace(OutputPath(options, specFile), result.yaml.value, options.change, versioning, result.newVersion, world)
  }

  /**
   * What the action's handling of the engine's result guarantees: only a
   * success with a completed write and git probe ends normally; a failure
   * is listed; the write comes first and never on a dry run; git calls
   * follow it, pass the three gates and keep to the plan's order; a git
   * warning never fails the action.
   */
  predicate Concluded(effects: seq<Effect>, code: int, specFile: string, options: Options, versioning: Versioning,
                      result: GenerationResult, world: World)
  {
    && (forall k :: 0 <= k < |effects| ==> ConcludingEffect(effects[k]))
    && (code == 0 || code == 1)
    && (code == 0 <==>
          && Succeeded(result)
          && (options.dryRun
              || (world.write.Returns? && world.gitAvailable.Returns? && (world.gitAvailable.value ==> world.isRepo.Returns?))))
    && (!Succeeded(result) ==> effects == FailureReport(result.errors))
    && (options.dryRun ==> forall k :: 0 <= k < |effects| ==> !effects[k].WriteFile? && !IsGitCall(effects[k]))
    && (forall k :: 0 <= k < |effects| && effects[k].WriteFile? ==>
          Succeeded(result) && k == 0 && effects[k] == WriteFile(OutputPath(options, specFile), result.yaml.value))
    && (forall k :: 0 <= k < |effects| && IsGitCall(effects[k]) ==> effects[0].WriteFile?)
    && ((exists k :: 0 <= k < |effects| && IsGitCall(effects[k])) ==>
          && code == 0 && !options.dryRun
          && world.gitAvailable.value && world.isRepo.value && versioning.autoCommit
          && GitCalls(effects) <= GitPlan(OutputPath(options, specFile), options.change, versioning, result.newVersion))
    && ((exists k :: 0 <= k < |effects| && effects[k].GitWarning?) ==> code == 0)
  }

  /** What the action does with the engine's result. */
  method Conclude(specFile: string, options: Options, versioning: Versioning, result: GenerationResult, world: World)
    returns (effects: seq<Effect>, code: int)
    ensures effects == ConcludeTrace(specFile, options, versioning, result, world)
    ensures Concluded(effects, code, specFile, options, versioning, result, world)
  {
    if !Succeeded(result) {
      effects := ReportFailure(result.errors);
      return effects, 1;
    }
    if options.dryRun {
      return [ShowDryRun(result.previousVersion, result.newVersion, result.yaml.value)], 0;
    }
    effects, code := Save(OutputPath(options, specFile), result.yaml.value, options.change,
                          versioning, result.newVersion, world);
  }

  /** The effects from the engine call on: the call, then a fatal error if it threw, else the handling of its result. */
  function EngineTrace(specFile: string, options: Options, versioning: Versioning, world: World): seq<Effect>
  {
    [EvolveSpec(RequestFor(specFile, options))]
    + if world.evolveSpec.Throws? then [Fatal(world.evolveSpec.message)]
      else ConcludeTrace(specFile, options, versioning, world.evolveSpec.value, world)
  }

  /**
   * What a run from the engine call on guarantees: the engine is called
   * with the mapped options; only a successful result is written, once, to
   * the chosen path, and never on a dry run; git calls follow the write,
   * pass the three gates and keep to the plan's order; a git warning never
   * fails the run; an unsuccessful result is listed and fails it.
   */
  predicate EngineRun(trace: seq<Effect>, code: int, specFile: string, options: Options, versioning: Versioning,
                      world: World)
  {
    && EngineOutcome(trace, code, specFile, options, world)
    && EngineWrites(trace, specFile, options, world)
    && EngineGit(trace, code, specFile, options, versioning, world)
  }

  /** The exit code and the engine call of an engine run, and the listing of an unsuccessful result. */
  predicate EngineOutcome(trace: seq<Effect>, code: int, specFile: string, options: Options, world: World)
  {
    && (code == 0 || code == 1)
    && (code == 0 <==> ConcludesNormally(options, world))
    && |trace| >= 1 && trace[0] == EvolveSpec(RequestFor(specFile, options))
    && (forall k :: 1 <= k < |trace| ==> !trace[k].EvolveSpec? && !trace[k].LoadConfig? && !trace[k].EnsureApiKey?)
    && (world.evolveSpec.Returns? && !Succeeded(world.evolveSpec.value) ==>
          trace == [trace[0]] + FailureReport(world.evolveSpec.value.errors) && code == 1)
  }

  /** The write of an engine run: only of a successful result, second, to the chosen path, never on a dry run. */
  predicate EngineWrites(trace: seq<Effect>, specFile: string, options: Options, world: World)
  {
    && (options.dryRun ==> forall k :: 0 <= k < |trace| ==> !trace[k].WriteFile? && !IsGitCall(trace[k]))
    && (forall k :: 0 <= k < |trace| && trace[k].WriteFile? ==>
          && k == 1 && world.evolveSpec.Returns? && Succeeded(world.evolveSpec.value)
          && trace[k] == WriteFile(OutputPath(options, specFile), world.evolveSpec.value.yaml.value))
  }

  /** The git calls of an engine run: after the write, behind the three gates, in plan order, failures only warned. */
  predicate EngineGit(trace: seq<Effect>, code: int, specFile: string, options: Options, versioning: Versioning,
                      world: World)
  {
    && (forall k :: 0 <= k < |trace| && IsGitCall(trace[k]) ==> k > 1 && trace[1].WriteFile?)
    && ((exists k :: 0 <= k < |trace| && IsGitCall(trace[k])) ==>
          && ConcludesNormally(options, world) && !options.dryRun
          && world.gitAvailable.value && world.isRepo.value && versioning.autoCommit
          && GitCalls(trace) <= GitPlan(OutputPath(options, specFile), options.change, versioning,
                                        world.evolveSpec.value.newVersion))
    && ((exists k :: 0 <= k < |trace| && trace[k].GitWarning?) ==> code == 0)
  }

  /**
   * The action from the engine call on. Of the configuration the API-key
   * step returned, only its versioning settings (the git gates) are read;
   * the configuration handed to the engine is not recorded in the effect.
   */
  method RunEngine(specFile: string, options: Options, versioning: Versioning, world: World)
    returns (trace: seq<Effect>, code: int)
    ensures trace == EngineTrace(specFile, options, versioning, world)
    ensures EngineRun(trace, code, specFile, options, versioning, world)
  {
    var call := EvolveSpec(RequestFor(specFile, options));
    if world.evolveSpec.Throws? {
      trace, code := [call, Fatal(world.evolveSpec.message)], 1;
      EngineThrows(trace, specFile, options, versioning, world);
      return;
    }
    var rest;
    rest, code := Conclude(specFile, options, versioning, world.evolveSpec.value, world);
    EngineConcludes(rest, code, specFile, options, versioning, world);
    trace := [call] + rest;
  }

  /** A throwing engine call ends the run with a fatal error. */
  lemma EngineThrows(trace: seq<Effect>, specFile: string, options: Options, versioning: Versioning, world: World)
    requires world.evolveSpec.Throws?
    requires trace == [EvolveSpec(RequestFor(specFile, options)), Fatal(world.evolveSpec.message)]
    ensures EngineRun(trace, 1, specFile, options, versioning, world)
  {
    NoGitCalls(trace);
  }

  /** The engine call followed by the handling of its result is an engine run. */
  lemma EngineConcludes(rest: seq<Effect>, code: int, specFile: string, options: Options, versioning: Versioning,
                        world: World)
    requires world.evolveSpec.Returns?
    requires Concluded(rest, code, specFile, options, versioning, world.evolveSpec.value, world)
    ensures EngineRun([EvolveSpec(RequestFor(specFile, options))] + rest, code, specFile, options, versioning, world)
  {
    EngineConcludesOutcome(rest, code, specFile, options, versioning, world);
    EngineConcludesWrites(rest, code, specFile, options, versioning, world);
    EngineConcludesGit(rest, code, specFile, options, versioning, world);
  }

  lemma EngineConcludesOutcome(rest: seq<Effect>, code: int, specFile: string, options: Options,
                               versioning: Versioning, world: World)
    requires world.evolveSpec.Returns?
    requires Concluded(rest, code, specFile, options, versioning, world.evolveSpec.value, world)
    ensures EngineOutcome([EvolveSpec(RequestFor(specFile, options))] + rest, code, specFile, options, world)
  {
    var trace := [EvolveSpec(RequestFor(specFile, options))] + rest;
    forall k | 1 <= k < |trace| ensures trace[k] == rest[k - 1] && ConcludingEffect(trace[k]) {
    }
  }

  lemma EngineConcludesWrites(rest: seq<Effect>, code: int, specFile: string, options: Options,
                              versioning: Versioning, world: World)
    requires world.evolveSpec.Returns?
    requires Concluded(rest, code, specFile, options, versioning, world.evolveSpec.value, world)
    ensures EngineWrites([EvolveSpec(RequestFor(specFile, options))] + rest, specFile, options, world)
  {
    var trace := [EvolveSpec(RequestFor(specFile, options))] + rest;
    forall k | 0 <= k < |trace| && trace[k].WriteFile? ensures k == 1 {
      assert rest[k - 1].WriteFile?;
    }
    if options.dryRun {
      forall k | 0 <= k < |trace| ensures !trace[k].WriteFile? && !IsGitCall(trace[k]) {
        if k > 0 {
          assert trace[k] == rest[k - 1];
        }
      }
    }
  }

  lemma EngineConcludesGit(rest: seq<Effect>, code: int, specFile: string, options: Options,
                           versioning: Versioning, world: World)
    requires world.evolveSpec.Returns?
    requires Concluded(rest, code, specFile, options, versioning, world.evolveSpec.value, world)
    ensures EngineGit([EvolveSpec(RequestFor(specFile, options))] + rest, code, specFile, options, versioning, world)
  {
    var before := [EvolveSpec(RequestFor(specFile, options))];
    var trace := before + rest;
    forall k | 0 <= k < |trace| && IsGitCall(trace[k]) ensures k > 1 && trace[1].WriteFile? {
      assert IsGitCall(rest[k - 1]);
    }
    if exists k :: 0 <= k < |trace| && IsGitCall(trace[k]) {
      var k :| 0 <= k < |trace| && IsGitCall(trace[k]);
      assert IsGitCall(rest[k - 1]);
      Composed(before, rest);
    }
    if exists k :: 0 <= k < |trace| && trace[k].GitWarning? {
      var k :| 0 <= k < |trace| && trace[k].GitWarning?;
      assert rest[k - 1].GitWarning?;
    }
  }

  /** The provider the API-key step is asked about: the option, else the configured one. */
  function ProviderFor(options: Options, config: Config): (provider: string)
    ensures options.provider.Some? ==> provider == options.provider.value
    ensures options.provider.None? ==> provider == config.provider
  {
    if options.provider.Some? then options.provider.value else config.provider
  }

  /**
   * The effects once the spec file is known to exist: load the
   * configuration, ask for the API key with the chosen provider, then run
   * the engine, reading only the versioning settings of the configuration
   * the API-key step returned; a throw or a cancellation stops the action.
   */
  function ConfiguredTrace(specFile: string, options: Options, world: World): seq<Effect>
  {
    if world.loadConfig.Throws? then [LoadConfig, Fatal(world.loadConfig.message)]
    else
      var key := EnsureApiKey(ProviderFor(options, world.loadConfig.value));
      if world.ensureApiKey.Throws? then [LoadConfig, key, Fatal(world.ensureApiKey.message)]
      else if world.ensureApiKey.value.cancelled then [LoadConfig, key, ApiKeyRequired]
      else [LoadConfig, key] + EngineTrace(specFile, options, world.ensureApiKey.value.config.versioning, world)
  }

  /**
   * A run once the spec file is known to exist: it loads the configuration;
   * unless the configuration is ready it stops with preliminary effects and
   * code 1; otherwise it asks for the API key and runs the engine.
   */
  predicate ConfiguredRun(trace: seq<Effect>, code: int, specFile: string, options: Options, world: World)
  {
    && |trace| >= 2 && trace[0] == LoadConfig
    && (!ConfigReady(world) ==> code == 1 && forall k :: 0 <= k < |trace| ==> Preliminary(trace[k]))
    && (ConfigReady(world) ==>
          && trace[1] == EnsureApiKey(ProviderFor(options, world.loadConfig.value))
          && EngineRun(trace[2..], code, specFile, options, world.ensureApiKey.value.config.versioning, world))
  }

  /** The action once the spec file is known to exist: configuration, API key, then the engine. */
  method EvolveFrom(specFile: string, options: Options, world: World) returns (trace: seq<Effect>, code: int)
    ensures trace == ConfiguredTrace(specFile, options, world)
    ensures ConfiguredRun(trace, code, specFile, options, world)
  {
    if world.loadConfig.Throws? {
      return [LoadConfig, Fatal(world.loadConfig.message)], 1;
    }
    var key := EnsureApiKey(ProviderFor(options, world.loadConfig.value));
    if world.ensureApiKey.Throws? {
      return [LoadConfig, key, Fatal(world.ensureApiKey.message)], 1;
    }
    var config := world.ensureApiKey.value.config;
    if world.ensureApiKey.value.cancelled {
      return [LoadConfig, key, ApiKeyRequired], 1;
    }
    var rest;
    rest, code := RunEngine(specFile, options, config.versioning, world);
    trace := [LoadConfig, key] + rest;
    ReadyRun(rest, code, specFile, options, world);
  }

  /** A ready configuration followed by an engine run makes a configured run. */
  lemma ReadyRun(rest: seq<Effect>, code: int, specFile: string, options: Options, world: World)
    requires ConfigReady(world)
    requires rest == EngineTrace(specFile, options, world.ensureApiKey.value.config.versioning, world)
    requires EngineRun(rest, code, specFile, options, world.ensureApiKey.value.config.versioning, world)
    ensures var trace := [LoadConfig, EnsureApiKey(ProviderFor(options, world.loadConfig.value))] + rest;
      && trace == ConfiguredTrace(specFile, options, world)
      && ConfiguredRun(trace, code, specFile, options, world)
  {
    var key := EnsureApiKey(ProviderFor(options, world.loadConfig.value));
    assert ([LoadConfig, key] + rest)[2..] == rest;
  }

  /** The effects of the whole action: the search, the two spec-file checks, then the configured run. */
  function EvolveTrace(arg: Option<string>, options: Options, world: World): seq<Effect>
  {
    var specFile := SpecFileOf(arg, world);
    if SearchThrows(arg, world) then [Fatal(world.findSpecFile.message)]
    else if !Truthy(specFile) then [NoSpecFile]
    else if specFile.value !in world.existing then [SpecNotFound(specFile.value)]
    else ConfiguredTrace(specFile.value, options, world)
  }

  /**
   * The first steps of the action happen when their turn comes: the
   * configuration is loaded once the spec file is located, the API key is
   * asked for once it loads, and the engine is called once both are ready.
   */
  lemma EvolveTraceStarts(arg: Option<string>, options: Options, world: World)
    ensures var T := EvolveTrace(arg, options, world);
      && (Located(arg, world) ==> |T| >= 2 && T[0] == LoadConfig)
      && (Located(arg, world) && world.loadConfig.Returns? ==>
            T[1] == EnsureApiKey(ProviderFor(options, world.loadConfig.value)))
      && (ReachesEngine(arg, world) ==>
            |T| >= 3 && T[2] == EvolveSpec(RequestFor(SpecFileOf(arg, world).value, options)))
  {
  }

  /** Once the spec file is located and the configuration is ready, the action is the engine run. */
  lemma EngineReached(arg: Option<string>, options: Options, world: World)
    requires ReachesEngine(arg, world)
    ensures EvolveTrace(arg, options, world)
      == [LoadConfig, EnsureApiKey(ProviderFor(options, world.loadConfig.value))]
         + EngineTrace(SpecFileOf(arg, world).value, options, world.ensureApiKey.value.config.versioning, world)
  {
    var spec := SpecFileOf(arg, world).value;
    assert EvolveTrace(arg, options, world) == ConfiguredTrace(spec, options, world);
  }

  /**
   * The last steps of the action happen when their turn comes: a successful
   * result is shown on a dry run and written otherwise, and behind the three
   * git gates the whole git block follows the two probes.
   */
  lemma EvolveTraceEnds(arg: Option<string>, options: Options, world: World)
    ensures var T := EvolveTrace(arg, options, world);
      && (ReachesEngine(arg, world) && world.evolveSpec.Returns? && Succeeded(world.evolveSpec.value) && options.dryRun ==>
            |T| >= 3
            && T[3..] == [ShowDryRun(world.evolveSpec.value.previousVersion, world.evolveSpec.value.newVersion,
                                     world.evolveSpec.value.yaml.value)])
      && (ReachesEngine(arg, world) && world.evolveSpec.Returns? && Succeeded(world.evolveSpec.value) && !options.dryRun ==>
            |T| >= 4
            && T[3] == WriteFile(OutputPath(options, SpecFileOf(arg, world).value), world.evolveSpec.value.yaml.value))
      && (&& ReachesEngine(arg, world) && world.evolveSpec.Returns? && Succeeded(world.evolveSpec.value)
          && !options.dryRun && world.write.Returns? && world.gitAvailable == Returns(true)
          && world.isRepo == Returns(true) && world.ensureApiKey.value.config.versioning.autoCommit ==>
            |T| >= 6
            && T[6..] == GitOutcome(OutputPath(options, SpecFileOf(arg, world).value), options.change,
                                    world.ensureApiKey.value.config.versioning, world.evolveSpec.value.newVersion,
                                    world.add, world.commit, world.tag))
  {
    if ReachesEngine(arg, world) && world.evolveSpec.Returns? && Succeeded(world.evolveSpec.value) {
      EngineReached(arg, options, world);
    }
  }

  /** The evolve command's action. */
  method Evolve(arg: Option<string>, options: Options, world: World) returns (trace: seq<Effect>, code: int)
    ensures trace == EvolveTrace(arg, options, world)
    ensures code == 0 || code == 1
    ensures code == 0 <==> EndsNormally(arg, options, world)
    // a throwing search or a missing spec file stops the action before any configuration or engine call
    ensures SearchThrows(arg, world) ==> trace == [Fatal(world.findSpecFile.message)] && code == 1
    ensures !SearchThrows(arg, world) && !Truthy(SpecFileOf(arg, world)) ==> trace == [NoSpecFile]
    ensures Truthy(SpecFileOf(arg, world)) && SpecFileOf(arg, world).value !in world.existing
        ==> trace == [SpecNotFound(SpecFileOf(arg, world).value)]
    ensures LoadConfig in trace ==> Located(arg, world)
    // the engine gets the spec file and the mapped options
    ensures forall k :: 0 <= k < |trace| && trace[k].EvolveSpec? ==>
        ReachesEngine(arg, world) && trace[k].request == RequestFor(SpecFileOf(arg, world).value, options)
    // a dry run neither writes nor touches git
    ensures options.dryRun ==> forall k :: 0 <= k < |trace| ==> !trace[k].WriteFile? && !IsGitCall(trace[k])
    // only a successful result is written, to the chosen output path
    ensures forall k :: 0 <= k < |trace| && trace[k].WriteFile? ==>
        && ReachesEngine(arg, world)
        && world.evolveSpec.Returns? && Succeeded(world.evolveSpec.value)
        && trace[k] == WriteFile(OutputPath(options, SpecFileOf(arg, world).value), world.evolveSpec.value.yaml.value)
    // git runs only after the write, only behind its three gates, and in plan order
    ensures forall k :: 0 <= k < |trace| && IsGitCall(trace[k]) ==>
        exists j :: 0 <= j < k && trace[j].WriteFile?
    ensures (exists k :: 0 <= k < |trace| && IsGitCall(trace[k])) ==>
        && EndsNormally(arg, options, world) && !options.dryRun
        && world.gitAvailable.value && world.isRepo.value
        && world.ensureApiKey.value.config.versioning.autoCommit
        && GitCalls(trace) <= GitPlan(OutputPath(options, SpecFileOf(arg, world).value), options.change,
                                      world.ensureApiKey.value.config.versioning,
                                      world.evolveSpec.value.newVersion)
    // a git failure is only a warning
    ensures (exists k :: 0 <= k < |trace| && trace[k].GitWarning?) ==> code == 0
    // an unsuccessful result is listed, nothing is written, and the action fails
    ensures ReachesEngine(arg, world) && world.evolveSpec.Returns? && !Succeeded(world.evolveSpec.value) ==>
        && code == 1
        && |trace| >= |FailureReport(world.evolveSpec.value.errors)|
        && trace[|trace| - |FailureReport(world.evolveSpec.value.errors)|..] == FailureReport(world.evolveSpec.value.errors)
  {
    if SearchThrows(arg, world) {
      return [Fatal(world.findSpecFile.message)], 1;
    }
    var specFile := SpecFileOf(arg, world);
    if !Truthy(specFile) {
      return [NoSpecFile], 1;
    }
    if specFile.value !in world.existing {
      return [SpecNotFound(specFile.value)], 1;
    }
    assert Located(arg, world);
    trace, code := EvolveFrom(specFile.value, options, world);
    ConfiguredOutcome(trace, code, specFile.value, options, world);
    ConfiguredCalls(trace, code, specFile.value, options, world);
    ConfiguredGit(trace, code, specFile.value, options, world);
  }

  /** The exit code of a configured run, and the listing of an unsuccessful result at its end. */
  lemma ConfiguredOutcome(trace: seq<Effect>, code: int, specFile: string, options: Options, world: World)
    requires ConfiguredRun(trace, code, specFile, options, world)
    ensures code == 0 || code == 1
    ensures code == 0 <==> ConfigReady(world) && ConcludesNormally(options, world)
    ensures ConfigReady(world) && world.evolveSpec.Returns? && !Succeeded(world.evolveSpec.value) ==>
        && code == 1
        && |trace| >= |FailureReport(world.evolveSpec.value.errors)|
        && trace[|trace| - |FailureReport(world.evolveSpec.value.errors)|..] == FailureReport(world.evolveSpec.value.errors)
  {
    if ConfigReady(world) {
      var rest := trace[2..];
      assert EngineOutcome(rest, code, specFile, options, world);
      if world.evolveSpec.Returns? && !Succeeded(world.evolveSpec.value) {
        assert trace[..2] + rest == trace;
        LiftedFailure(trace[..2], rest, code, specFile, options, world);
      }
    }
  }

  /** The engine call and the write of a configured run. */
  lemma ConfiguredCalls(trace: seq<Effect>, code: int, specFile: string, options: Options, world: World)
    requires ConfiguredRun(trace, code, specFile, options, world)
    ensures forall k :: 0 <= k < |trace| && trace[k].EvolveSpec? ==>
        ConfigReady(world) && trace[k].request == RequestFor(specFile, options)
    ensures options.dryRun ==> forall k :: 0 <= k < |trace| ==> !trace[k].WriteFile? && !IsGitCall(trace[k])
    ensures forall k :: 0 <= k < |trace| && trace[k].WriteFile? ==>
        && ConfigReady(world) && world.evolveSpec.Returns? && Succeeded(world.evolveSpec.value)
        && trace[k] == WriteFile(OutputPath(options, specFile), world.evolveSpec.value.yaml.value)
  {
    if ConfigReady(world) {
      assert trace[..2] + trace[2..] == trace;
      LiftedCalls(trace[..2], trace[2..], code, specFile, options, world.ensureApiKey.value.config.versioning, world);
    }
  }

  /** The git calls of a configured run. */
  lemma ConfiguredGit(trace: seq<Effect>, code: int, specFile: string, options: Options, world: World)
    requires ConfiguredRun(trace, code, specFile, options, world)
    ensures forall k :: 0 <= k < |trace| && IsGitCall(trace[k]) ==> exists j :: 0 <= j < k && trace[j].WriteFile?
    ensures (exists k :: 0 <= k < |trace| && IsGitCall(trace[k])) ==>
        && ConfigReady(world) && ConcludesNormally(options, world) && !options.dryRun
        && world.gitAvailable.value && world.isRepo.value
        && world.ensureApiKey.value.config.versioning.autoCommit
        && GitCalls(trace) <= GitPlan(OutputPath(options, specFile), options.change,
                                      world.ensureApiKey.value.config.versioning, world.evolveSpec.value.newVersion)
    ensures (exists k :: 0 <= k < |trace| && trace[k].GitWarning?) ==> code == 0
  {
    if ConfigReady(world) {
      assert trace[..2] + trace[2..] == trace;
      LiftedGit(trace[..2], trace[2..], code, specFile, options, world.ensureApiKey.value.config.versioning, world);
    }
  }

  /** Effects that are neither the engine call, a write, a git call nor a git warning. */
  predicate Preliminary(e: Effect)
  {
    !e.EvolveSpec? && !e.WriteFile? && !IsGitCall(e) && !e.GitWarning?
  }

  /** Effects without git calls in front of a trace change none of its git calls. */
  lemma Composed(before: seq<Effect>, rest: seq<Effect>)
    requires forall k :: 0 <= k < |before| ==> !IsGitCall(before[k])
    ensures GitCalls(before + rest) == GitCalls(rest)
  {
    NoGitCalls(before);
    GitCallsAppend(before, rest);
  }

  /** The guarantees of an engine run carry over when preliminary effects come first: calls and writes. */
  lemma LiftedCalls(before: seq<Effect>, rest: seq<Effect>, code: int, specFile: string, options: Options,
                    versioning: Versioning, world: World)
    requires forall k :: 0 <= k < |before| ==> Preliminary(before[k])
    requires EngineRun(rest, code, specFile, options, versioning, world)
    ensures var t := before + rest;
      && (forall k :: 0 <= k < |t| && t[k].EvolveSpec? ==> t[k] == EvolveSpec(RequestFor(specFile, options)))
      && (options.dryRun ==> forall k :: 0 <= k < |t| ==> !t[k].WriteFile? && !IsGitCall(t[k]))
      && (forall k :: 0 <= k < |t| && t[k].WriteFile? ==>
            && world.evolveSpec.Returns? && Succeeded(world.evolveSpec.value)
            && t[k] == WriteFile(OutputPath(options, specFile), world.evolveSpec.value.yaml.value))
  {
    var t := before + rest;
    forall k | 0 <= k < |t| ensures t[k] == if k < |before| then before[k] else rest[k - |before|] {
    }
  }

  /** The guarantees of an engine run carry over when preliminary effects come first: git. */
  lemma LiftedGit(before: seq<Effect>, rest: seq<Effect>, code: int, specFile: string, options: Options,
                  versioning: Versioning, world: World)
    requires forall k :: 0 <= k < |before| ==> Preliminary(before[k])
    requires EngineRun(rest, code, specFile, options, versioning, world)
    ensures var t := before + rest;
      && (forall k :: 0 <= k < |t| && IsGitCall(t[k]) ==> exists j :: 0 <= j < k && t[j].WriteFile?)
      && ((exists k :: 0 <= k < |t| && IsGitCall(t[k])) ==>
            && ConcludesNormally(options, world) && !options.dryRun
            && world.gitAvailable.value && world.isRepo.value && versioning.autoCommit
            && GitCalls(t) <= GitPlan(OutputPath(options, specFile), options.change, versioning,
                                      world.evolveSpec.value.newVersion))
      && ((exists k :: 0 <= k < |t| && t[k].GitWarning?) ==> code == 0)
  {
    var t := before + rest;
    var n := |before|;
    Composed(before, rest);
    forall k | 0 <= k < |t| && IsGitCall(t[k]) ensures exists j :: 0 <= j < k && t[j].WriteFile? {
      assert IsGitCall(rest[k - n]);
      assert t[n + 1] == rest[1];
    }
    if exists k :: 0 <= k < |t| && IsGitCall(t[k]) {
      var k :| 0 <= k < |t| && IsGitCall(t[k]);
      assert IsGitCall(rest[k - n]);
    }
    if exists k :: 0 <= k < |t| && t[k].GitWarning? {
      var k :| 0 <= k < |t| && t[k].GitWarning?;
      assert rest[k - n].GitWarning?;
    }
  }

  /** The guarantees of an engine run carry over when preliminary effects come first: the failure listing. */
  lemma LiftedFailure(before: seq<Effect>, rest: seq<Effect>, code: int, specFile: string, options: Options,
                      world: World)
    requires EngineOutcome(rest, code, specFile, options, world)
    requires world.evolveSpec.Returns? && !Succeeded(world.evolveSpec.value)
    ensures var t := before + rest;
      var report := FailureReport(world.evolveSpec.value.errors);
      |t| >= |report| && t[|t| - |report|..] == report
  {
    var t := before + rest;
    var report := FailureReport(world.evolveSpec.value.errors);
    assert t[|t| - |report|..] == rest[1..];
  }
}
