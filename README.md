# vite-miniprogram-ci in Dafny

A model of the configuration and dispatch pipeline of the `vite-miniprogram-ci` Vite plugin,
with proofs about it. After a build the plugin runs a mini-program CI action (open the WeChat
developer tools, upload or preview) for a platform. The model covers these parts:

- **Deep merge.** `deepMerge`, `isPlainObject` and `get` run over a JavaScript value datatype
  (`JsValue.Value`): plain objects, arrays, objects with other prototypes, strings, integers,
  booleans, `null` and `undefined`. It has a JavaScript truthiness predicate.
  - `deepMerge` is modelled twice. The imperative form keeps the source's key loop and its
    recursion (`MergeKeys`, `MergeValue`, `DeepMerge`). The pure specification is `Merge` /
    `MergeAll`. The methods are proved equal to the specification.
  - Precedence, copying and no-op properties are proved about the specification.
- **Configuration resolver.** It layers global defaults, then platform defaults, then user
  options, and validates `config[platform].appid`.
- **Platform registry.** The registry and the driver factory.
- **`doAction` pipeline.** It records the steps it begins as a trace, so the order of the
  steps can be stated. The method `Dispatch.DoAction` is proved against the pure function
  `Dispatch.RunSpec`: outcome, trace and configuration are exactly what it gives. The order of the
  steps, the early failures and the dispatch are lemmas about `RunSpec`. `RunSpec` builds the
  configuration and hands the rest to `RunWithConfig` (validate, then drive).
- **`bootstrap`.** Its log-level guard and its `type=` / `action=` positional fallback.
- **Small decision functions:**
  - project path resolution;
  - the version fallback, including the zero-padded `YYYYMMDD.HHmm` timestamp;
  - the description fallback;
  - the log-level filter table;
  - the home-directory fallback chain;
  - the npm resolution cache and its two-step loader.
- **WeChat driver.** `init` is a method proved against a pure step function (`Weapp.InitStep`).
  Also modelled: `open`'s guard sequence, the project configuration projection and the
  experience QR content.

### Host inputs

Everything the process, the filesystem or the clock supplies is an input. Module `Host`
gathers these inputs:

- `Env` holds:
  - `process.cwd()`;
  - the platform;
  - the environment variables;
  - `getuid()`;
  - `os.homedir()`;
  - the parsed `package.json`;
  - the date components;
  - the two locale date strings.
- `Io` holds:
  - `path.isAbsolute`, `path.resolve` and `path.join` as abstract functions;
  - `fs.pathExists` and `fs.readFile`;
  - the md5 digest;
  - `require`, which may fail with a message.
- Errors the source throws are values of `Errors.Error`, returned through `Result`. `Errors.Message`
  gives the message text each one carries.
- `WeappCI extends BaseCI` becomes composition: a `WeappCI` holds its `BaseCI` part as `base`.

### Code and design disagree in one place

`validateConfig` reads `config[platform][field]`. When `config[platform]` is absent, the code
throws a TypeError, not the named configuration error. The model follows the code. A missing
block is the `CannotReadProperty` error, which `Config.ValidateConfig` returns. It is not a
precondition.

## Model

| member | source | states |
|---|---|---|
| JsValue.IsPlainObject | src/utils/object.ts:6-15 | walking the prototype chain decides "plain object" exactly: false for primitives, null, arrays, class instances and null-prototype objects, true for `{}`-created objects |
| JsValue.IsObject | src/utils/object.ts:49-51 | a falsy value comes back itself; otherwise a boolean, true exactly for non-array objects |
| ObjectUtils.MergeKeys | src/utils/object.ts:30-40 | the for..in loop, taking the source's keys in any order, yields exactly `Merge(target, source)` |
| ObjectUtils.MergeValue | src/utils/object.ts:29-41 | deepMerge with one source equals `Merge`; a non-plain target or source is returned unchanged |
| ObjectUtils.DeepMerge | src/utils/object.ts:23-44 | the recursion over the sources equals `MergeAll(target, sources)` |
| ObjectUtils.MergeAllNoSources | src/utils/object.ts:24 | with no sources the target is returned unchanged |
| ObjectUtils.MergeAllStopsAtUndefined | src/utils/object.ts:25-27 | an undefined source and every source after it are ignored |
| ObjectUtils.MergeAllLeftToRight | src/utils/object.ts:43 | sources apply left to right: the next source is merged into the result of the earlier ones |
| ObjectUtils.MergeAllKeepsPlain | src/utils/object.ts:29-44 | merging into a plain object always yields a plain object |
| ObjectUtils.MergeNonPlainIsNoOp | src/utils/object.ts:29 | if target or source is not a plain object the step changes nothing |
| ObjectUtils.MergeFields | src/utils/object.ts:30-40 | the merged keys are the union of both key sets; keys absent from the source keep the target's value |
| ObjectUtils.MergeAtKey | src/utils/object.ts:32-39 | per key: a non-plain source value overwrites wholesale; a plain one merges into the existing plain object, into a fresh `{}` when the target value is missing or falsy, and leaves a truthy non-plain target value untouched |
| ObjectUtils.MergeIntoEmptyCopies | src/utils/object.ts:34-36 | merging a plain source into a fresh `{}` gives an equal copy of it |
| ObjectUtils.MergeIdempotent | src/utils/object.ts:29-40 | merging the same source a second time changes nothing |
| ObjectUtils.MergeExamples | src/utils/object.ts:32-39 | `{a:{x:1}}` with `{a:{y:2}}` gives `{a:{x:1,y:2}}`; an array value is replaced, not merged |
| ObjectUtils.SourceLeafWins | src/utils/object.ts:32-39 | a non-plain leaf of the source ends up in the result, unless a truthy non-plain target value blocks the way down to it |
| ObjectUtils.TargetLeafKept | src/utils/object.ts:29-41 | a target leaf survives the merge unless the source sets something at or above it |
| ObjectUtils.Get | src/utils/object.ts:56-68 | the loop over the dot-separated keys returns the default when it meets null/undefined or ends on undefined, else the value reached |
| ObjectUtils.WalkFollowsPlainPath | src/utils/object.ts:60-65 | through plain objects the walk reaches the value stored at the key path |
| ObjectUtils.GetReadsPlainPath | src/utils/object.ts:56-68 | get on a path present through plain objects returns the stored value, or the default if that is undefined |
| ObjectUtils.WalkStopsAtNullish | src/utils/object.ts:61-63 | a null or undefined value met before a later key stops the walk |
| ObjectUtils.GetDefaultsAtNullish | src/utils/object.ts:61-67 | then get returns the default |
| Config.DefaultConfig | src/core/config.ts:22-31 | exactly the keys logLevel, projectPath, robot and setting; projectPath is the working directory and every other entry is truthy |
| Config.PlatformDefaults | src/core/config.ts:34-57 | PLATFORM_DEFAULT_CONFIG holds exactly weapp, alipay, swan and tiktok; each of them gets `{type: 'miniProgram'}` and any other name gets `{}` |
| Config.CreateConfig | src/core/config.ts:56-60 | `deepMerge({}, DEFAULT_CONFIG, platformDefaults, userConfig)` with `{}` for an unknown platform and for an undefined userConfig; the result is a plain object |
| Config.CreateConfigLayers | src/core/config.ts:56-60 | the result is the user's options merged over the defaults layered with the platform's, in a fresh object |
| Config.LayeredDefaultsValue | src/core/config.ts:34-57 | a known platform adds exactly `type: 'miniProgram'` to the global defaults; an unknown one adds nothing and raises nothing |
| Config.CreateConfigOfEmpty | src/core/config.ts:56-60 | with `{}` as the user's options the configuration is the layered defaults |
| Config.CreateConfigDefaults | src/core/config.ts:22-57 | without user options: logLevel 'info', projectPath the cwd, robot 1, and type 'miniProgram' exactly for a known platform |
| Config.CreateConfigDefaultSetting | src/core/config.ts:27-30 | without user options setting.es6, setting.minify and setting.autoPrefixWXSS are all true |
| Config.UserLeafWins | src/core/config.ts:59 | user options beat both default layers at any non-plain leaf the defaults leave open |
| Config.DefaultLeafKept | src/core/config.ts:59 | a default leaf survives whenever the user options do not set it or anything above it |
| Config.TypePrecedence | src/core/config.ts:34-59 | the platform's `type` is at top level; a non-plain user `type` replaces it, and without a user `type` it stays 'miniProgram' |
| Config.CreateConfigScenario | src/core/config.ts:56-60 | `{weapp:{appid:'wx123'}}` for weapp keeps the setting defaults and robot 1 and carries the appid |
| Config.CheckFields | src/core/config.ts:68-72 | the forEach over the required fields succeeds exactly when the list is empty or the block exists and every field in it is truthy; otherwise it raises for the first falsy field, or the property-read TypeError for a missing block |
| Config.ValidateConfig | src/core/config.ts:65-75 | true exactly when `config[platform].appid` is truthy; the error names `appid` when the block exists, and is a property-read TypeError when it is missing |
| Config.ValidateConfigNamesAppid | src/core/config.ts:69-71 | every validation error message contains "appid" |
| Decimal.IntToString | src/core/helpers.ts:53 | `String(year)`: a minus sign exactly for a negative number, followed by digits that denote its magnitude |
| Decimal.NatToString | src/core/helpers.ts:53-57 | `String(n)`: a digit string with no leading zero that denotes n |
| Helpers.ResolveProjectPath | src/core/helpers.ts:21-29 | empty path gives cwd; absolute path is unchanged; a relative one is resolved against cwd |
| Helpers.ResolvedPathIsAbsolute | src/core/helpers.ts:21-29 | with an absolute cwd the result is always absolute |
| Helpers.ResolveProjectPathIdempotent | src/core/helpers.ts:21-29 | resolving an already resolved path changes nothing |
| Helpers.Pad2 | src/core/helpers.ts:54-57 | `padStart(2, '0')`: strings of length two or more are unchanged, shorter ones are left-filled with '0' to length 2 |
| Helpers.TwoDigits | src/core/helpers.ts:54-57 | a number below 100 becomes two digits denoting it |
| Helpers.Timestamp | src/core/helpers.ts:52-59 | the year's text, then two digits each for month+1 and day, a dot, and two digits each for hour and minute, each reading back as that field |
| Helpers.TimestampFormat | src/core/helpers.ts:52-59 | for a four-digit year the fallback version matches `^\d{8}\.\d{4}$` and its fields read back as year, month+1, day, hour and minute |
| Helpers.GenerateVersion | src/core/helpers.ts:36-60 | a truthy option version, else a truthy package.json version, else the timestamp; the result is always truthy |
| Helpers.UnreadablePackageGivesTimestamp | src/core/helpers.ts:42-59 | a package.json read failure only falls through to the timestamp |
| Helpers.GenerateDesc | src/core/helpers.ts:67-75 | a truthy option description, else `CI构建 ` followed by the locale date; always truthy |
| Platforms.LookupDriver | src/platforms/index.ts:12-27 | a driver exactly for the names in PLATFORM_MAP, which holds weapp only |
| Platforms.GetSupportedPlatforms | src/platforms/index.ts:35-37 | the map's keys, each once, and nothing else |
| Platforms.FactoryRejectsExactlyUnsupported | src/platforms/index.ts:22-37 | the factory rejects exactly the names the supported list leaves out |
| Platforms.CreatePlatformCIFactory | src/platforms/index.ts:22-30 | unknown name raises "unsupported mini-program platform"; otherwise a fresh driver built from the given options, or the package.json error its constructor throws |
| BaseCi.DriverVersion | src/core/BaseCi.ts:29 | the option version when truthy, else `packageInfo?.version` |
| BaseCi.DriverDesc | src/core/BaseCi.ts:30 | the option description when truthy, else the locale-time default; always truthy |
| BaseCi.Unimplemented | src/core/BaseCi.ts:42-59 | each base operation raises a "Must implement" error whose message names the operation |
| BaseCi.UnimplementedDistinct | src/core/BaseCi.ts:42-59 | the four stubs raise four different messages |
| BaseCi.BaseCI.constructor | src/core/BaseCi.ts:21-32 | options stored as given, version and description by their fallbacks, no project path |
| BaseCi.BaseCI.SetProjectPath | src/core/BaseCi.ts:37-39 | sets the project path and modifies no other field |
| Weapp.DefaultDevToolsPath | src/platforms/weapp/WeappCI.ts:87-91 | the macOS application path on darwin, the Windows install path everywhere else |
| Weapp.DeleteKey | src/platforms/weapp/WeappCI.ts:70 | `delete`: an object loses exactly that own key; any other value is unchanged |
| Weapp.DeleteKeyReads | src/platforms/weapp/WeappCI.ts:70 | after the delete the key reads as undefined and every other key reads as before |
| Weapp.GetWeappConfig | src/platforms/weapp/WeappCI.ts:98-106 | type 'miniProgram' plus exactly projectPath, appid, privateKeyPath and ignores read from the weapp options |
| Weapp.GetWeappConfigReadsOnlyCopiedKeys | src/platforms/weapp/WeappCI.ts:98-106 | options that agree on the four copied keys give the same project configuration |
| Weapp.DeleteInstallPathKeepsConfig | src/platforms/weapp/WeappCI.ts:68-73 | deleting devToolsInstallPath first does not change the project configuration |
| Weapp.KeyPathChecked | src/platforms/weapp/WeappCI.ts:74-76 | an absolute private key path is kept, a relative one is joined to the cwd |
| Weapp.InitFrame | src/platforms/weapp/WeappCI.ts:56-81 | init keeps the set of plugin option keys and every entry but weapp; on failure the project instance is unchanged |
| Weapp.InitChecksOptionsFirst | src/platforms/weapp/WeappCI.ts:58-60 | missing weapp options raise first and change no field |
| Weapp.InitChecksSdkSecond | src/platforms/weapp/WeappCI.ts:61-66 | a failed SDK load raises "not installed" and changes no field |
| Weapp.InitSucceedsIff | src/platforms/weapp/WeappCI.ts:56-81 | init succeeds exactly when the options exist, the SDK loads, and the private key path is a string naming an existing file |
| Weapp.InitSuccessState | src/platforms/weapp/WeappCI.ts:68-80 | after success: SDK set; install path is the configured truthy one or the platform default; the key is deleted from weapp and nothing else in the options changes; the Project is built from the unresolved private key path |
| Weapp.InitKeyFailureKeepsInstance | src/platforms/weapp/WeappCI.ts:74-80 | a private key failure leaves `instance` as it was, with the SDK already loaded |
| Weapp.CliPath | src/platforms/weapp/WeappCI.ts:127-130 | the install path joined with `/cli.bat` on win32 and with `/Contents/MacOS/cli` everywhere else |
| Weapp.IdeStatusSuffix | src/platforms/weapp/WeappCI.ts:134-139 | the status file path contains the md5 of the install path and ends in `/Default/.ide-status` |
| Weapp.ProjectPathText | src/platforms/weapp/WeappCI.ts:156 | an unset project path is written as "undefined" |
| Weapp.ExperienceQrContentAppid | src/platforms/weapp/WeappCI.ts:235 | the QR content is the fixed prefix, the appid text and `#wechat-redirect`, and the appid can be read back |
| Weapp.WeappCI.UploadQrContent | src/platforms/weapp/WeappCI.ts:235 | the fixed prefix, then the configured `weapp.appid` as template text, then `#wechat-redirect` |
| Weapp.WeappCI.constructor | src/platforms/weapp/WeappCI.ts:43-50 | base fields as BaseCI sets them; no instance, empty install path, no SDK |
| Weapp.WeappCI.Init | src/platforms/weapp/WeappCI.ts:56-81 | the result and the new state are exactly `InitStep` of the old state, with the fields set before a later failure kept |
| Weapp.WeappCI.Open | src/platforms/weapp/WeappCI.ts:122-157 | returns early when the install path is missing, the IDE status file is missing, or its content is 'Off'; otherwise runs `cli open --project <path>`; a missing CLI only sets a flag |
| Dispatch.ParseAction | src/index.ts:62-77 | exactly the strings 'open', 'preview' and 'upload' select an action |
| Dispatch.ResolvePathArg | src/index.ts:38 | falsy path means the cwd, a string is resolved, any other truthy value is a TypeError |
| Dispatch.CallOptionsEntries | src/index.ts:43-48 | the caller's keys plus projectPath, version and desc; those three are the resolved path and the generated labels, every other entry is the caller's |
| Dispatch.BuiltConfigLayers | src/index.ts:42-50 | the configuration is those options merged over the global defaults layered with the platform's |
| Dispatch.BuiltConfigOverrides | src/index.ts:42-50 | the built configuration carries the resolved path and the generated version and description |
| Dispatch.DriverUsesGeneratedLabels | src/index.ts:42-55 | the driver constructed from that configuration uses the generated version and description |
| Dispatch.DriveSpecOrdered | src/index.ts:55-77 | after validation the trace goes on in pipeline order, and a success is the action the caller named |
| Dispatch.Drive | src/index.ts:55-77 | outcome and steps are exactly `DriveSpec` of the package.json read and init's result; a driver exists exactly for a registered platform with a readable package.json, holding the resolved path and the state init leaves |
| Dispatch.RunWithConfigOrdered | src/index.ts:51-77 | from a built configuration on, the trace is a prefix of the pipeline, or all of it and the dispatch of the named action |
| Dispatch.RunOrdered | src/index.ts:29-82 | every run's trace is a non-empty prefix of the pipeline when it fails, and the whole pipeline followed by the dispatch of the named action when it succeeds |
| Dispatch.RunEarlyFailures | src/index.ts:32-38 | an unsupported platform fails with the platform error after the platform check alone; a non-string path fails with its TypeError after two steps; neither builds a configuration |
| Dispatch.RunBuildsConfig | src/index.ts:38-52 | past the path, the run continues with the configuration built from the caller's options and the resolved path, and returns that configuration |
| Dispatch.RunValidationFailure | src/index.ts:51-52 | a configuration that fails validation ends the run after four steps with validation's error |
| Dispatch.RunAfterValidation | src/index.ts:54-77 | an unreadable package.json fails after construction; an init failure fails after the whole pipeline with init's error; an unknown action fails after init; a known one succeeds and is dispatched |
| Dispatch.DoAction | src/index.ts:29-82 | outcome, trace and configuration are exactly `RunSpec`'s; a driver exists exactly when validation passed and the factory could construct one, and it holds the resolved path and the state init leaves |
| Dispatch.PositionalValue | src/index.ts:112-113 | a value is found only when some positional starts with the prefix |
| Dispatch.PositionalFirstMatchWins | src/index.ts:112-113 | the first positional starting with the prefix decides |
| Dispatch.PositionalValueText | src/index.ts:112-113 | for `name=text` the value is the text up to its own first '=' |
| Dispatch.MergedArgs | src/index.ts:109-114 | parsed args override options; type and action fall back to the positional values when not truthy |
| Dispatch.Bootstrap | src/index.ts:88-128 | the log level is set only when options.logLevel is truthy; with no truthy action nothing runs and no configuration is built; otherwise outcome, trace and configuration are those of doAction on mergedArgs.type, the action, `mergedArgs.projectPath \|\| ''` and mergedArgs |
| Strings.Split | src/index.ts:112-113 | `split(sep)` pieces contain no separator and join back to the input |
| Strings.SplitJoin | src/index.ts:112-113 | splitting a join of separator-free pieces gives the pieces back |
| Logger.LevelFilter | src/utils/logger.ts:87-93 | SILENT admits nothing, DEBUG admits everything, and an error is admitted at every level but SILENT |
| Logger.FilterIsThreshold | src/utils/logger.ts:87-93 | for message levels, the table admits exactly messages at least as severe as the current level; SILENT admits none |
| Logger.FilterMonotone | src/utils/logger.ts:87-93 | whatever ERROR admits WARN admits, whatever WARN admits INFO admits, whatever INFO admits DEBUG admits |
| Logger.ParseLevel | src/utils/logger.ts:3-9 | a value is a level exactly when it is one of the five level strings |
| Logger.CheckedLevel | src/utils/logger.ts:117-173 | every logger method but `line` checks a level, and none checks SILENT |
| Logger.ShowsMonotone | src/utils/logger.ts:117-173 | info, task and success show together; debug implies info implies warn implies error; line always prints |
| Logger.MethodPrintSets | src/utils/logger.ts:112-175 | info, task and success print at INFO and DEBUG; warn at WARN, INFO and DEBUG; error at every level but SILENT; debug at DEBUG only |
| Logger.Line | src/utils/logger.ts:171-173 | a line of 80 dashes |
| Logger.PrintLevel | src/utils/logger.ts:184-190 | error maps to ERROR, warning maps to WARN, and every other process type maps to INFO |
| Logger.Prefix | src/utils/logger.ts:191-192 | the table's prefix, and '未知' exactly for unknown process types |
| Logger.Message | src/utils/logger.ts:194 | `msg`, followed by a space and the extra text only when that is non-empty |
| Logger.LogState.constructor | src/utils/logger.ts:84 | the initial level is INFO |
| Logger.LogState.SetLogLevel | src/utils/logger.ts:99-106 | a valid level is stored; any other value resets the level to INFO |
| Logger.LogState.PrintLog | src/utils/logger.ts:183-201 | prints exactly when the filter admits the mapped level; the line is `[prefix] ` followed by the message |
| Logger.PrintLogErrorsAndUnknown | src/utils/logger.ts:184-192 | errors print at every level but SILENT; unknown types print at INFO and DEBUG only |
| HomeDir.FirstSet | src/utils/index.ts:65 | the first non-empty variable, and empty only when all are |
| HomeDir.UserOrder | src/utils/index.ts:65 | the user is LOGNAME, else USER, else LNAME, else USERNAME |
| HomeDir.GetUserHomeDir | src/utils/index.ts:57-85 | `os.homedir()` whenever it exists, else the environment fallback |
| HomeDir.WindowsOrder | src/utils/index.ts:68-70 | on win32: USERPROFILE, else HOMEDRIVE+HOMEPATH if non-empty, else HOME |
| HomeDir.EnvHomeDir | src/utils/index.ts:62-83 | off win32 a non-empty HOME wins; on a platform other than win32, darwin and linux the result is HOME, empty when unset |
| HomeDir.LinuxRootWithoutHome | src/utils/index.ts:78-80 | on linux without HOME, uid 0 gets '/root' |
| HomeDir.DarwinUserHome | src/utils/index.ts:73-75 | on darwin without HOME, '/Users/<user>' for a non-empty user name, whatever the uid |
| HomeDir.LinuxUserHome | src/utils/index.ts:77-80 | on linux without HOME and with a uid other than 0, '/home/<user>' for a non-empty user name |
| HomeDir.EnvHomeDirEmpty | src/utils/index.ts:62-83 | per platform, the fallback is empty exactly when every variable it consults is empty |
| Npm.Resolve | src/utils/npm.ts:25-32 | a successful result is what the cache now holds for the name; other entries are untouched |
| Npm.NpmCache.constructor | src/utils/npm.ts:5 | the cache starts empty |
| Npm.NpmCache.ResolveNpmSync | src/utils/npm.ts:25-32 | the result and the new cache are exactly `Resolve` of the old cache |
| Npm.CacheHit | src/utils/npm.ts:28-31 | a cached name is answered from the table, whatever the root, and the cache is unchanged |
| Npm.FirstCallStores | src/utils/npm.ts:28-29 | the first successful call stores the resolved path under the name |
| Npm.SecondCallIgnoresRoot | src/utils/npm.ts:25-32 | a later call with another root returns the first-resolved path |
| Npm.GetNpmPkgSync | src/utils/npm.ts:41-55 | loads `searchPath/node_modules/name` first, then the bare name; if both fail, raises the import error with the second failure's message |
| Npm.ImportFailureNamesPackage | src/utils/npm.ts:51-53 | the import error message contains the package name and the cause |

## Left out

- Aliasing and in-place identity. Values are immutable, so `deepMerge`'s update of `target` is
  modelled as returning the updated target. That the same object is returned, and that sources
  share their non-plain values with the result, are not captured.
- Key order. Objects are maps. The order of keys (for..in, `Object.keys`, spread) is not
  modelled. `MergeKeys` is proved correct for every order.
- Inherited and special keys. The model has no inherited enumerable properties, no
  `Object.prototype` members and no `__proto__` key. Members of the prototypes of arrays,
  strings and numbers (`map`, `length`, `toFixed`, ...) read as undefined too, so `get` returns
  its default for a path such as `list.map` where the source finds a function. A platform name such as `toString` would
  find an inherited value in `PLATFORM_MAP` / `PLATFORM_DEFAULT_CONFIG` in the source.
- Non-integer numbers, NaN and `-0`. Numbers are integers. The upload/preview size summary's
  division by 1024 is floating point and is left out.
- Strings are sequences of characters, not UTF-16 code units.
- Asynchrony and `process.exit`.
  - `open`, `upload` and `preview` are `async` and are not awaited by `doAction`, so their
    failures escape its `try`. `Dispatch.DoAction` records the dispatch step and does not run them.
  - `WeappCI.Open` is modelled on its own.
  - The async `getNpmPkg` is not part of this model.
- The SDK, QR imaging, shell, hashing and the filesystem.
  - The bodies of `upload` and `preview` are SDK calls, QR image reading and printing, and
    logging. Only the experience QR content of `upload` is modelled.
  - `new ci.Project(config)` is recorded as the configuration it receives.
  - `shell.exec` is recorded as the command string.
  - md5, `fs`, `require`, `path` and the `resolve` package are abstract inputs.
  - `open` reads the `.ide-status` file through a total input: a rejecting `fs.readFile` would
    make the source's `open` reject, which the model does not show.
  - `findFiles` (glob) is not part of this model.
- `Weapp.WeappCI.Open`: a non-string install path is treated as absent. This matches how
  `fs.pathExists` answers for such a path.
- `Weapp.WeappCI.UploadQrContent`: the QR string only. Printing the code and writing
  `upload.png` are not modelled.
- `Dispatch.DoAction`: the driver always has `open`, so `ci.open && ci.open()` is modelled as
  the open dispatch.
- Console output and colour.
  - The `logger.*` lines written by `doAction`, `bootstrap` and the drivers are not modelled.
  - chalk colouring is not modelled.
  - `setLogLevel`'s warning for an invalid level is not modelled.
  - Only the filter decision and the text `printLog` composes are modelled.
- Locale-dependent date strings. `toLocaleString` / `toLocaleTimeString` are opaque string inputs.
- CLI parsing and plugin glue.
  - minimist itself is not modelled. Its result is given as a map, and its `_` list as
    positional strings. Numeric positionals, which minimist turns into numbers and which
    would make `startsWith` throw, are not represented.
  - The Vite plugin wrapper `vitePluginMiniCi` is not part of this model.
- `Platforms.CreatePlatformCIFactory`: a package.json that cannot be read or parsed is a single
  error carrying the cause. The exact Node error is not modelled. That package.json is read
  twice, once by `require` in `generateVersion` and once by `readFileSync` in `BaseCI`, is not
  modelled either: both reads see the same input.
- `Errors.Message`: the message of a non-string path is Node's own first sentence only. The
  text after it, which describes the value received, is not reproduced.
- `JsValue.TemplateText`: every object that is not plain reads as `[object Object]`. A class
  instance with its own `toString` would read differently in the source; such methods are not
  modelled.
- `Helpers.GenerateVersion`: the error line logged when package.json cannot be read is not
  modelled.
- The type declarations in `src/types.ts` and `src/types/miniprogram-ci.d.ts` carry no logic.
  Only `ActionType` is transcribed, as `Dispatch.ActionKind`.
