/**
 * src/index.ts: doAction, the fixed sequence from platform check to dispatched action, and
 * the parts of bootstrap around it (the log-level guard, the positional `type=`/`action=`
 * fallback, and the short-circuit when no action is given). The steps doAction begins are
 * recorded in order as a trace; the log lines it writes are not modelled.
 */
module Dispatch {
  import opened Wrappers
  import opened JsValue
  import opened Host
  import opened Errors
  import opened Strings
  import opened ObjectUtils
  import Config
  import Helpers
  import Platforms
  import Weapp
  import Logger
  import BaseCi

  /** The ActionType members (types.ts:4-11). */
  datatype ActionKind = OpenAction | PreviewAction | UploadAction

  /** The switch of doAction (index.ts:62-77): strict equality with the enum's string values. */
  function ParseAction(v: Value): (r: Option<ActionKind>)
    ensures r == Some(OpenAction) <==> v == Str("open")
    ensures r == Some(PreviewAction) <==> v == Str("preview")
    ensures r == Some(UploadAction) <==> v == Str("upload")
  {
    if v == Str("open") then Some(OpenAction)
    else if v == Str("preview") then Some(PreviewAction)
    else if v == Str("upload") then Some(UploadAction)
    else None
  }

  /** The steps of doAction, in the order it begins them. */
  datatype Step =
    | CheckPlatform | ResolvePath | BuildConfig | Validate | ConstructDriver
    | SetProjectPath | InitDriver | Dispatch(action: ActionKind)

  const PIPELINE: seq<Step> :=
    [CheckPlatform, ResolvePath, BuildConfig, Validate, ConstructDriver, SetProjectPath, InitDriver]

  /** getSupportedPlatforms().includes(platform) (index.ts:32-33). */
  predicate Supported(platform: Value) {
    platform.Str? && platform.s in Platforms.GetSupportedPlatforms()
  }

  /**
   * resolveProjectPath on whatever value reaches it: a falsy value means the working
   * directory; a truthy value that is not a string makes path.isAbsolute throw (helpers.ts:21-29).
   */
  function ResolvePathArg(projectPath: Value, cwd: string, paths: PathOps): (r: Result<string, Error>)
    ensures !Truthy(projectPath) ==> r == Success(cwd)
    ensures projectPath.Str? ==> r == Success(Helpers.ResolveProjectPath(projectPath.s, cwd, paths))
    ensures r.Failure? <==> Truthy(projectPath) && !projectPath.Str?
  {
    if !Truthy(projectPath) then Success(cwd)
    else if projectPath.Str? then Success(Helpers.ResolveProjectPath(projectPath.s, cwd, paths))
    else Failure(PathNotAString(projectPath))
  }

  /** The options createConfig receives (index.ts:43-48): the caller's, with path, version and description replaced. */
  function CallOptions(options: map<string, Value>, resolved: string, env: Env): map<string, Value>
    requires ValidDate(env.now)
  {
    options["projectPath" := Str(resolved)]
           ["version" := Helpers.GenerateVersion(options, env.packageJson, env.now)]
           ["desc" := Helpers.GenerateDesc(options, env.localeNow)]
  }

  /** The configuration doAction builds for a supported platform (index.ts:42-50). */
  function BuiltConfig(platform: string, options: map<string, Value>, resolved: string, env: Env): (r: Value)
    requires ValidDate(env.now)
    ensures r.Plain?
  {
    Config.CreateConfig(Plain(CallOptions(options, resolved, env)), platform, env.cwd)
  }

  /** The caller's options survive except at the three keys doAction sets. */
  lemma CallOptionsEntries(options: map<string, Value>, resolved: string, env: Env)
    requires ValidDate(env.now)
    ensures var o := CallOptions(options, resolved, env);
            && o.Keys == options.Keys + {"projectPath", "version", "desc"}
            && o["projectPath"] == Str(resolved)
            && o["version"] == Helpers.GenerateVersion(options, env.packageJson, env.now)
            && o["desc"] == Helpers.GenerateDesc(options, env.localeNow)
            && (forall k :: k in options && k != "projectPath" && k != "version" && k != "desc" ==> o[k] == options[k])
  {
  }

  /** The configuration is the merged global and platform defaults with those options merged over them. */
  lemma BuiltConfigLayers(platform: string, options: map<string, Value>, resolved: string, env: Env)
    requires ValidDate(env.now)
    ensures BuiltConfig(platform, options, resolved, env)
            == Merge(Config.LayeredDefaults(platform, env.cwd), Plain(CallOptions(options, resolved, env)))
  {
    Config.CreateConfigLayers(Plain(CallOptions(options, resolved, env)), platform, env.cwd);
  }

  /** The state a freshly constructed driver starts init from. */
  function FreshDriver(config: Value): Weapp.DriverState
    requires config.Plain?
  {
    Weapp.DriverState(config.fields, None, Str(""), None)
  }

  /** The configuration carries the resolved path, and the generated version and description unless one is itself a plain object. */
  lemma BuiltConfigOverrides(platform: string, options: map<string, Value>, resolved: string, env: Env)
    requires ValidDate(env.now)
    ensures var c := BuiltConfig(platform, options, resolved, env);
            var version := Helpers.GenerateVersion(options, env.packageJson, env.now);
            var desc := Helpers.GenerateDesc(options, env.localeNow);
            && At(c, ["projectPath"]) == Some(Str(resolved))
            && (!version.Plain? ==> At(c, ["version"]) == Some(version))
            && (!desc.Plain? ==> At(c, ["desc"]) == Some(desc))
  {
    var u := Plain(CallOptions(options, resolved, env));
    Config.LayeredDefaultsValue(platform, env.cwd);
    Config.UserLeafWins(u, platform, env.cwd, ["projectPath"], Str(resolved));
    var version := Helpers.GenerateVersion(options, env.packageJson, env.now);
    var desc := Helpers.GenerateDesc(options, env.localeNow);
    if !version.Plain? {
      Config.UserLeafWins(u, platform, env.cwd, ["version"], version);
    }
    if !desc.Plain? {
      Config.UserLeafWins(u, platform, env.cwd, ["desc"], desc);
    }
  }

  /** The driver then keeps the generated version and description, since both are truthy. */
  lemma DriverUsesGeneratedLabels(platform: string, options: map<string, Value>, resolved: string, env: Env, packageInfo: Value)
    requires ValidDate(env.now)
    requires !Helpers.GenerateVersion(options, env.packageJson, env.now).Plain?
    requires !Helpers.GenerateDesc(options, env.localeNow).Plain?
    ensures var c := BuiltConfig(platform, options, resolved, env);
            && BaseCi.DriverVersion(c.fields, packageInfo) == Helpers.GenerateVersion(options, env.packageJson, env.now)
            && BaseCi.DriverDesc(c.fields, env.localeTimeNow) == Helpers.GenerateDesc(options, env.localeNow)
  {
    BuiltConfigOverrides(platform, options, resolved, env);
  }

  /** The trace of a run: a prefix of the pipeline when it failed, the whole pipeline and the dispatch when it succeeded. */
  predicate Ordered(trace: seq<Step>, outcome: Result<ActionKind, Error>) {
    || (outcome.Failure? && exists n :: 1 <= n <= |PIPELINE| && trace == PIPELINE[..n])
    || (outcome.Success? && trace == PIPELINE + [Dispatch(outcome.value)])
  }

  /** The literal traces the run records are the pipeline's prefixes. */
  lemma PipelinePrefixes()
    ensures PIPELINE[..1] == [CheckPlatform]
    ensures PIPELINE[..2] == [CheckPlatform, ResolvePath]
    ensures PIPELINE[..4] == [CheckPlatform, ResolvePath, BuildConfig, Validate]
    ensures PIPELINE[..5] == [CheckPlatform, ResolvePath, BuildConfig, Validate] + [ConstructDriver]
    ensures PIPELINE == PIPELINE[..7] == [CheckPlatform, ResolvePath, BuildConfig, Validate] + [ConstructDriver, SetProjectPath, InitDriver]
  {
  }

  /**
   * What the second half of doAction (index.ts:55-77) yields once the configuration is valid:
   * the outcome and the steps begun after validation, given the package.json read and the
   * result of the driver's init.
   */
  function DriveSpec(platform: string, packageJson: PackageRead, init: Result<bool, Error>, action: Value): (Result<ActionKind, Error>, seq<Step>)
  {
    if platform !in Platforms.PLATFORM_MAP then (Failure(UnsupportedMiniProgram(platform)), [ConstructDriver])
    else if packageJson.Unreadable? then (Failure(PackageJsonUnreadable(packageJson.cause)), [ConstructDriver])
    else if init.Failure? then (Failure(init.error), [ConstructDriver, SetProjectPath, InitDriver])
    else match ParseAction(action)
      case None => (Failure(UnsupportedAction(action)), [ConstructDriver, SetProjectPath, InitDriver])
      case Some(kind) => (Success(kind), [ConstructDriver, SetProjectPath, InitDriver] + [Dispatch(kind)])
  }

  /** After validation the run ends in order, and a success is the action the caller named. */
  lemma DriveSpecOrdered(platform: string, packageJson: PackageRead, init: Result<bool, Error>, action: Value)
    ensures var (outcome, steps) := DriveSpec(platform, packageJson, init, action);
            && Ordered([CheckPlatform, ResolvePath, BuildConfig, Validate] + steps, outcome)
            && (outcome.Success? ==> ParseAction(action) == Some(outcome.value))
  {
    PipelinePrefixes();
  }

  /**
   * The second half of doAction (index.ts:55-77): construct the driver, set its path, init it
   * and dispatch. `steps` continues the trace after validation.
   */
  method Drive(platform: string, config: Value, resolved: string, action: Value, env: Env, io: Io)
    returns (outcome: Result<ActionKind, Error>, steps: seq<Step>, driver: Option<Weapp.WeappCI>)
    requires config.Plain?
    ensures (outcome, steps) == DriveSpec(platform, env.packageJson, Weapp.InitStep(FreshDriver(config), env, io).0, action)
    ensures driver.Some? <==> platform in Platforms.PLATFORM_MAP && env.packageJson.Parsed?
    ensures driver.Some? ==>
              && fresh(driver.value) && fresh(driver.value.base)
              && driver.value.base.projectPath == Some(resolved)
              && driver.value.State() == Weapp.InitStep(FreshDriver(config), env, io).1
  {
    driver := None;
    steps := [ConstructDriver];
    var made := Platforms.CreatePlatformCIFactory(platform, config.fields, env);
    if made.Failure? {
      return Failure(made.error), steps, driver;
    }
    var ci := made.value;
    driver := Some(ci);
    steps := [ConstructDriver, SetProjectPath];
    ci.base.SetProjectPath(resolved);
    steps := [ConstructDriver, SetProjectPath, InitDriver];
    var init := ci.Init(env, io);
    if init.Failure? {
      return Failure(init.error), steps, driver;
    }
    match ParseAction(action)
    case None =>
      outcome := Failure(UnsupportedAction(action));
    case Some(kind) =>
      steps := [ConstructDriver, SetProjectPath, InitDriver] + [Dispatch(kind)];
      outcome := Success(kind);
  }

  /** What a call of doAction yields: its outcome, the steps it began, and the configuration it built. */
  datatype Run = Run(outcome: Result<ActionKind, Error>, trace: seq<Step>, config: Option<Value>)

  /** The part of doAction after the configuration is built (index.ts:51-77): validate it, then drive. */
  function RunWithConfig(platform: string, c: Value, action: Value, env: Env, io: Io): Run
    requires c.Plain?
  {
    match Config.ValidateConfig(c, platform)
    case Failure(e) => Run(Failure(e), [CheckPlatform, ResolvePath, BuildConfig, Validate], Some(c))
    case Success(_) =>
      var (outcome, steps) := DriveSpec(platform, env.packageJson, Weapp.InitStep(FreshDriver(c), env, io).0, action);
      Run(outcome, [CheckPlatform, ResolvePath, BuildConfig, Validate] + steps, Some(c))
  }

  /** doAction (index.ts:29-82) as a function of its arguments; every error is re-raised unchanged. */
  function RunSpec(platform: Value, action: Value, projectPath: Value, options: map<string, Value>, env: Env, io: Io): Run
    requires ValidDate(env.now)
  {
    if !Supported(platform) then Run(Failure(UnsupportedPlatform(platform)), [CheckPlatform], None)
    else match ResolvePathArg(projectPath, env.cwd, io.paths)
      case Failure(e) => Run(Failure(e), [CheckPlatform, ResolvePath], None)
      case Success(resolved) => RunWithConfig(platform.s, BuiltConfig(platform.s, options, resolved, env), action, env, io)
  }

  /** Past the configuration, the trace is in order, and a success names the caller's action. */
  lemma RunWithConfigOrdered(platform: string, c: Value, action: Value, env: Env, io: Io)
    requires c.Plain?
    ensures var r := RunWithConfig(platform, c, action, env, io);
            && Ordered(r.trace, r.outcome)
            && (r.outcome.Success? ==> ParseAction(action) == Some(r.outcome.value))
  {
    if Config.ValidateConfig(c, platform).Failure? {
      EarlyTracesOrdered(Config.ValidateConfig(c, platform).error);
    } else {
      DriveSpecOrdered(platform, env.packageJson, Weapp.InitStep(FreshDriver(c), env, io).0, action);
    }
  }

  /** The traces of the three early failures are the pipeline's first one, two and four steps. */
  lemma EarlyTracesOrdered(e: Error)
    ensures Ordered([CheckPlatform], Failure(e))
    ensures Ordered([CheckPlatform, ResolvePath], Failure(e))
    ensures Ordered([CheckPlatform, ResolvePath, BuildConfig, Validate], Failure(e))
  {
    PipelinePrefixes();
  }

  /** Every run's trace is a prefix of the pipeline, or all of it and the dispatch of the named action. */
  lemma RunOrdered(platform: Value, action: Value, projectPath: Value, options: map<string, Value>, env: Env, io: Io)
    requires ValidDate(env.now)
    ensures var r := RunSpec(platform, action, projectPath, options, env, io);
            && Ordered(r.trace, r.outcome)
            && (r.outcome.Success? ==> ParseAction(action) == Some(r.outcome.value))
  {
    var r := RunSpec(platform, action, projectPath, options, env, io);
    if !Supported(platform) {
      EarlyTracesOrdered(UnsupportedPlatform(platform));
      return;
    }
    var path := ResolvePathArg(projectPath, env.cwd, io.paths);
    if path.Failure? {
      EarlyTracesOrdered(path.error);
      return;
    }
    RunWithConfigOrdered(platform.s, BuiltConfig(platform.s, options, path.value, env), action, env, io);
  }

  /** An unsupported platform is rejected before anything else happens; a bad path before any configuration is built. */
  lemma RunEarlyFailures(platform: Value, action: Value, projectPath: Value, options: map<string, Value>, env: Env, io: Io)
    requires ValidDate(env.now)
    ensures var r := RunSpec(platform, action, projectPath, options, env, io);
            var path := ResolvePathArg(projectPath, env.cwd, io.paths);
            && (!Supported(platform) ==> r == Run(Failure(UnsupportedPlatform(platform)), [CheckPlatform], None))
            && (Supported(platform) && path.Failure? ==> r == Run(Failure(path.error), PIPELINE[..2], None))
  {
    PipelinePrefixes();
  }

  /** Past the path, the run continues with the configuration built from the caller's options and the resolved path. */
  lemma RunBuildsConfig(platform: Value, action: Value, projectPath: Value, options: map<string, Value>, env: Env, io: Io, resolved: string)
    requires ValidDate(env.now)
    requires Supported(platform) && ResolvePathArg(projectPath, env.cwd, io.paths) == Success(resolved)
    ensures var c := BuiltConfig(platform.s, options, resolved, env);
            && RunSpec(platform, action, projectPath, options, env, io) == RunWithConfig(platform.s, c, action, env, io)
            && RunSpec(platform, action, projectPath, options, env, io).config == Some(c)
  {
  }

  /** A configuration that fails validation stops the run before any driver, with validation's error. */
  lemma RunValidationFailure(platform: string, c: Value, action: Value, env: Env, io: Io)
    requires c.Plain? && Config.ValidateConfig(c, platform).Failure?
    ensures RunWithConfig(platform, c, action, env, io)
            == Run(Failure(Config.ValidateConfig(c, platform).error), PIPELINE[..4], Some(c))
  {
    PipelinePrefixes();
  }

  /**
   * Once the configuration is valid: a package.json that cannot be read stops the run at
   * construction; otherwise the driver's init decides, and after it the action, which must be
   * one of the three names.
   */
  lemma RunAfterValidation(platform: string, c: Value, action: Value, env: Env, io: Io)
    requires c.Plain? && Config.ValidateConfig(c, platform).Success?
    requires platform in Platforms.GetSupportedPlatforms()
    ensures var r := RunWithConfig(platform, c, action, env, io);
            var init := Weapp.InitStep(FreshDriver(c), env, io).0;
            && r.config == Some(c)
            && (env.packageJson.Unreadable? ==>
                  r.outcome == Failure(PackageJsonUnreadable(env.packageJson.cause)) && r.trace == PIPELINE[..5])
            && (env.packageJson.Parsed? && init.Failure? ==> r.outcome == Failure(init.error) && r.trace == PIPELINE)
            && (env.packageJson.Parsed? && init.Success? && ParseAction(action).None? ==>
                  r.outcome == Failure(UnsupportedAction(action)) && r.trace == PIPELINE)
            && (env.packageJson.Parsed? && init.Success? && ParseAction(action).Some? ==>
                  r.outcome == Success(ParseAction(action).value) && r.trace == PIPELINE + [Dispatch(ParseAction(action).value)])
  {
    PipelinePrefixes();
  }

  /** doAction (index.ts:29-82), proved to yield what RunSpec says, and to leave the driver in the state init produced. */
  method DoAction(platform: Value, action: Value, projectPath: Value, options: map<string, Value>, env: Env, io: Io)
    returns (outcome: Result<ActionKind, Error>, trace: seq<Step>, config: Option<Value>, driver: Option<Weapp.WeappCI>)
    requires ValidDate(env.now)
    ensures Run(outcome, trace, config) == RunSpec(platform, action, projectPath, options, env, io)
    ensures config.Some? ==> config.value.Plain?
    // a driver exists exactly when validation passed and the factory could construct one
    ensures driver.Some? <==>
              && config.Some? && platform.Str? && Config.ValidateConfig(config.value, platform.s).Success?
              && platform.s in Platforms.PLATFORM_MAP && env.packageJson.Parsed?
    ensures driver.Some? ==>
              && fresh(driver.value) && fresh(driver.value.base)
              && config.Some? && ResolvePathArg(projectPath, env.cwd, io.paths).Success?
              && driver.value.base.projectPath == Some(ResolvePathArg(projectPath, env.cwd, io.paths).value)
              && driver.value.State() == Weapp.InitStep(FreshDriver(config.value), env, io).1
  {
    trace := [CheckPlatform];
    config := None;
    driver := None;
    if !(platform.Str? && platform.s in Platforms.GetSupportedPlatforms()) {
      return Failure(UnsupportedPlatform(platform)), trace, config, driver;
    }
    var name := platform.s;
    trace := [CheckPlatform, ResolvePath];
    var path := ResolvePathArg(projectPath, env.cwd, io.paths);
    if path.Failure? {
      return Failure(path.error), trace, config, driver;
    }
    var resolved := path.value;
    trace := [CheckPlatform, ResolvePath, BuildConfig];
    var ciConfig := BuiltConfig(name, options, resolved, env);
    config := Some(ciConfig);
    trace := [CheckPlatform, ResolvePath, BuildConfig, Validate];
    var valid := Config.ValidateConfig(ciConfig, name);
    if valid.Failure? {
      return Failure(valid.error), trace, config, driver;
    }
    var steps;
    outcome, steps, driver := Drive(name, ciConfig, resolved, action, env, io);
    trace := [CheckPlatform, ResolvePath, BuildConfig, Validate] + steps;
  }

  // ---------------------------------------------------------------------------
  // bootstrap (index.ts:88-128)
  // ---------------------------------------------------------------------------

  /**
   * args._?.find(arg => arg.startsWith(prefix))?.split('=')[1] (index.ts:112-113):
   * the second '='-separated piece of the first positional starting with prefix.
   */
  function PositionalValue(positionals: seq<string>, prefix: string): (r: Value)
    ensures r != Undef ==> exists i :: 0 <= i < |positionals| && StartsWith(positionals[i], prefix)
    decreases |positionals|
  {
    if positionals == [] then Undef
    else if StartsWith(positionals[0], prefix) then
      var parts := Split(positionals[0], '=');
      if |parts| > 1 then Str(parts[1]) else Undef
    else
      var r := PositionalValue(positionals[1..], prefix);
      assert r != Undef ==> exists i :: 1 <= i < |positionals| && StartsWith(positionals[i], prefix) by {
        if r != Undef {
          var j :| 0 <= j < |positionals[1..]| && StartsWith(positionals[1..][j], prefix);
          assert positionals[j + 1] == positionals[1..][j];
        }
      }
      r
  }

  /** The first matching positional decides, even when a later one would give another value. */
  lemma PositionalFirstMatchWins(before: seq<string>, arg: string, after: seq<string>, prefix: string)
    requires forall i :: 0 <= i < |before| ==> !StartsWith(before[i], prefix)
    requires StartsWith(arg, prefix)
    ensures PositionalValue(before + [arg] + after, prefix) == PositionalValue([arg], prefix)
    decreases |before|
  {
    if before == [] {
      assert before + [arg] + after == [arg] + after;
    } else {
      assert (before + [arg] + after)[1..] == before[1..] + [arg] + after;
      PositionalFirstMatchWins(before[1..], arg, after, prefix);
    }
  }

  /** For `name=text`, the value is the text up to its own first '=', or all of the text. */
  lemma PositionalValueText(name: string, text: string)
    requires '=' !in name
    ensures var v := PositionalValue([name + "=" + text], name + "=");
            && v.Str?
            && '=' !in v.s
            && (v.s == text || (|v.s| < |text| && text[..|v.s|] == v.s && text[|v.s|] == '='))
  {
    var arg := name + "=" + text;
    assert arg == name + ['='] + text;
    assert StartsWith(arg, name + "=");
    SplitAtFirstSeparator(name, text, '=');
    var rest := Split(text, '=');
    assert Split(arg, '=')[1] == rest[0];
    if |rest| > 1 {
      assert Join(rest, '=') == rest[0] + ['='] + Join(rest[1..], '=');
      assert text == rest[0] + ['='] + Join(rest[1..], '=');
      assert text[..|rest[0]|] == rest[0];
    } else {
      assert Join(rest, '=') == rest[0];
    }
  }

  /** The arguments doAction receives (index.ts:109-114): options, then parsed arguments, then the resolved type and action. */
  function MergedArgs(options: map<string, Value>, args: map<string, Value>, positionals: seq<string>): (r: map<string, Value>)
    ensures forall k :: k != "type" && k != "action" && k in args ==> k in r && r[k] == args[k]
    ensures forall k :: k != "type" && k != "action" && k !in args && k in options ==> k in r && r[k] == options[k]
    ensures Truthy(Field(args, "type")) ==> Field(r, "type") == Field(args, "type")
    ensures !Truthy(Field(args, "type")) ==> Field(r, "type") == PositionalValue(positionals, "type=")
    ensures Truthy(Field(args, "action")) ==> Field(r, "action") == Field(args, "action")
    ensures !Truthy(Field(args, "action")) ==> Field(r, "action") == PositionalValue(positionals, "action=")
  {
    (options + args)["type" := Or(Field(args, "type"), PositionalValue(positionals, "type="))]
                    ["action" := Or(Field(args, "action"), PositionalValue(positionals, "action="))]
  }

  /**
   * bootstrap (index.ts:88-128), from the parsed command line on: minimist's result is given
   * as `args` (its `_` list as `positionals`). `trace` is doAction's, empty when nothing is dispatched.
   */
  method Bootstrap(options: map<string, Value>, args: map<string, Value>, positionals: seq<string>,
                   log: Logger.LogState, env: Env, io: Io)
    returns (outcome: Result<Option<ActionKind>, Error>, trace: seq<Step>, config: Option<Value>)
    requires ValidDate(env.now)
    modifies log
    ensures Truthy(Field(options, "logLevel")) && Logger.ParseLevel(Field(options, "logLevel")).Some? ==>
              log.currentLogLevel == Logger.ParseLevel(Field(options, "logLevel")).value
    ensures Truthy(Field(options, "logLevel")) && Logger.ParseLevel(Field(options, "logLevel")).None? ==>
              log.currentLogLevel == Logger.Info
    ensures !Truthy(Field(options, "logLevel")) ==> log.currentLogLevel == old(log.currentLogLevel)
    // doAction receives mergedArgs.type, the action, mergedArgs.projectPath || '' and mergedArgs itself
    ensures var merged := MergedArgs(options, args, positionals);
            var action := Field(merged, "action");
            var run := RunSpec(Field(merged, "type"), action, Or(Field(merged, "projectPath"), Str("")), merged, env, io);
            && (!Truthy(action) ==> outcome == Success(None) && trace == [] && config.None?)
            && (Truthy(action) ==> trace == run.trace && config == run.config)
            && (Truthy(action) && run.outcome.Failure? ==> outcome == Failure(run.outcome.error))
            && (Truthy(action) && run.outcome.Success? ==> outcome == Success(Some(run.outcome.value)))
  {
    if Truthy(Field(options, "logLevel")) {
      log.SetLogLevel(Field(options, "logLevel"));
    }
    var merged := MergedArgs(options, args, positionals);
    var action := Field(merged, "action");
    if !Truthy(action) {
      return Success(None), [], None;
    }
    var result, steps, built, _ := DoAction(Field(merged, "type"), action, Or(Field(merged, "projectPath"), Str("")), merged, env, io);
    trace, config := steps, built;
    if result.Failure? {
      outcome := Failure(result.error);
    } else {
      outcome := Success(Some(result.value));
    }
  }
}
