/**
 * src/platforms/weapp/WeappCI.ts: the WeChat mini-program driver. WeappCI extends BaseCI in
 * the source; here it holds its BaseCI part as `base`. The miniprogram-ci SDK is opaque:
 * `ci` is the module reference that loaded and `instance` the configuration the SDK's Project
 * was constructed from.
 */
module Weapp {
  import opened Wrappers
  import opened JsValue
  import opened Host
  import opened Errors
  import opened Strings
  import opened BaseCi
  import Npm
  import HomeDir

  /** getDefaultDevToolsPath (WeappCI.ts:87-91). */
  function DefaultDevToolsPath(platform: OsPlatform): (r: string)
    ensures platform == Darwin ==> r == "/Applications/wechatwebdevtools.app"
    ensures platform != Darwin ==> r == "C:\\Program Files (x86)\\Tencent\\微信web开发者工具"
  {
    if platform == Darwin then "/Applications/wechatwebdevtools.app"
    else "C:\\Program Files (x86)\\Tencent\\微信web开发者工具"
  }

  /** `delete v[key]`: removes an own property of an object; other values are unaffected. */
  function DeleteKey(v: Value, key: string): (r: Value)
    ensures v.Plain? ==> r == Plain(v.fields - {key})
    ensures v.NonPlainObj? ==> r == NonPlainObj(v.kind, v.own - {key})
    ensures !v.Plain? && !v.NonPlainObj? ==> r == v
  {
    match v
    case Plain(m) => Plain(m - {key})
    case NonPlainObj(kind, own) => NonPlainObj(kind, own - {key})
    case _ => v
  }

  /** After the delete, reading the key gives undefined; every other key reads as before. */
  lemma DeleteKeyReads(v: Value, key: string, other: string)
    requires (v.Plain? || v.NonPlainObj?) && other != key
    ensures Property(DeleteKey(v, key), key) == Undef
    ensures Property(DeleteKey(v, key), other) == Property(v, other)
  {
  }

  /** The keys getWeappConfig copies from the weapp options. */
  const COPIED_KEYS: set<string> := {"projectPath", "appid", "privateKeyPath", "ignores"}

  /** getWeappConfig (WeappCI.ts:98-106); the appPath argument is unused. */
  function GetWeappConfig(weapp: Value): (r: Value)
    requires !IsNullish(weapp)
    ensures r.Plain? && r.fields.Keys == COPIED_KEYS + {"type"}
    ensures r.fields["type"] == Str("miniProgram")
    ensures forall k :: k in COPIED_KEYS ==> r.fields[k] == Property(weapp, k)
  {
    Plain(map[
      "type" := Str("miniProgram"),
      "projectPath" := Property(weapp, "projectPath"),
      "appid" := Property(weapp, "appid"),
      "privateKeyPath" := Property(weapp, "privateKeyPath"),
      "ignores" := Property(weapp, "ignores")])
  }

  /** Only the four copied keys matter: options that agree on them give the same project configuration. */
  lemma GetWeappConfigReadsOnlyCopiedKeys(w1: Value, w2: Value)
    requires !IsNullish(w1) && !IsNullish(w2)
    requires forall k :: k in COPIED_KEYS ==> Property(w1, k) == Property(w2, k)
    ensures GetWeappConfig(w1) == GetWeappConfig(w2)
  {
    assert "projectPath" in COPIED_KEYS && "appid" in COPIED_KEYS;
    assert "privateKeyPath" in COPIED_KEYS && "ignores" in COPIED_KEYS;
  }

  /** So deleting devToolsInstallPath before building the configuration changes nothing in it. */
  lemma DeleteInstallPathKeepsConfig(weapp: Value)
    requires !IsNullish(weapp)
    ensures GetWeappConfig(DeleteKey(weapp, "devToolsInstallPath")) == GetWeappConfig(weapp)
  {
    forall k | k in COPIED_KEYS
      ensures Property(DeleteKey(weapp, "devToolsInstallPath"), k) == Property(weapp, k)
    {
      if weapp.Plain? || weapp.NonPlainObj? {
        DeleteKeyReads(weapp, "devToolsInstallPath", k);
      }
    }
    GetWeappConfigReadsOnlyCopiedKeys(DeleteKey(weapp, "devToolsInstallPath"), weapp);
  }

  /** The fields init reads and writes. */
  datatype DriverState = DriverState(
    pluginOpts: map<string, Value>,
    ci: Option<ModuleRef>,
    devToolsInstallPath: Value,
    instance: Option<Value>)

  /** The private key path init checks: kept when absolute, else joined to the working directory (WeappCI.ts:74-76). */
  function KeyPathChecked(privateKeyPath: string, cwd: string, paths: PathOps): (r: string)
    ensures paths.isAbsolute(privateKeyPath) ==> r == privateKeyPath
    ensures !paths.isAbsolute(privateKeyPath) ==> r == paths.join([cwd, privateKeyPath])
  {
    if paths.isAbsolute(privateKeyPath) then privateKeyPath else paths.join([cwd, privateKeyPath])
  }

  /** What init does to the driver's state, and what it raises (WeappCI.ts:56-81). */
  function InitStep(s: DriverState, env: Env, io: Io): (Result<bool, Error>, DriverState)
  {
    var weapp := Field(s.pluginOpts, "weapp");
    if !Truthy(weapp) then (Failure(WeappOptionMissing), s)
    else
      match Npm.GetNpmPkgSync("miniprogram-ci", env.cwd, io)
      case Failure(_) => (Failure(SdkNotInstalled), s)
      case Success(sdk) =>
        var install := Or(Property(weapp, "devToolsInstallPath"), Str(DefaultDevToolsPath(env.platform)));
        var trimmed := DeleteKey(weapp, "devToolsInstallPath");
        var s1 := s.(pluginOpts := s.pluginOpts["weapp" := trimmed], ci := Some(sdk), devToolsInstallPath := install);
        var config := GetWeappConfig(trimmed);
        var key := config.fields["privateKeyPath"];
        if !key.Str? then (Failure(PathNotAString(key)), s1)
        else
          var checked := KeyPathChecked(key.s, env.cwd, io.paths);
          if !io.pathExists(checked) then (Failure(PrivateKeyNotFound(checked)), s1)
          else (Success(true), s1.(instance := Some(config)))
  }

  /**
   * What init may change: of the plugin options only the weapp entry (the keys and every other
   * entry stay), and the project instance only when it succeeds.
   */
  lemma InitFrame(s: DriverState, env: Env, io: Io)
    ensures var (r, s') := InitStep(s, env, io);
            && s'.pluginOpts.Keys == s.pluginOpts.Keys
            && (forall k :: k in s.pluginOpts && k != "weapp" ==> s'.pluginOpts[k] == s.pluginOpts[k])
            && (r.Failure? ==> s'.instance == s.instance)
  {
  }

  /** Missing weapp options are reported first and change nothing, not even when the SDK is absent too. */
  lemma InitChecksOptionsFirst(s: DriverState, env: Env, io: Io)
    requires !Truthy(Field(s.pluginOpts, "weapp"))
    ensures InitStep(s, env, io) == (Failure(WeappOptionMissing), s)
  {
  }

  /** A missing SDK is reported before the install path is touched, and changes nothing. */
  lemma InitChecksSdkSecond(s: DriverState, env: Env, io: Io)
    requires Truthy(Field(s.pluginOpts, "weapp")) && Npm.GetNpmPkgSync("miniprogram-ci", env.cwd, io).Failure?
    ensures InitStep(s, env, io) == (Failure(SdkNotInstalled), s)
  {
  }

  /** init succeeds exactly when the options exist, the SDK loads, and the private key path is a string naming an existing file. */
  lemma InitSucceedsIff(s: DriverState, env: Env, io: Io)
    ensures var weapp := Field(s.pluginOpts, "weapp");
            var key := OptionalProperty(weapp, "privateKeyPath");
            InitStep(s, env, io).0.Success? <==>
              && Truthy(weapp)
              && Npm.GetNpmPkgSync("miniprogram-ci", env.cwd, io).Success?
              && key.Str?
              && io.pathExists(KeyPathChecked(key.s, env.cwd, io.paths))
  {
    var weapp := Field(s.pluginOpts, "weapp");
    if Truthy(weapp) {
      DeleteInstallPathKeepsConfig(weapp);
    }
  }

  /**
   * After a successful init: the SDK is loaded, the install path is the configured one or the
   * platform default, the key is gone from the weapp options, no other option changed, and the
   * Project is built from the options' own (unresolved) private key path.
   */
  lemma InitSuccessState(s: DriverState, env: Env, io: Io)
    requires InitStep(s, env, io).0.Success?
    ensures var s' := InitStep(s, env, io).1;
            var weapp := Field(s.pluginOpts, "weapp");
            && s'.ci.Some?
            && Truthy(s'.devToolsInstallPath)
            && (Truthy(Property(weapp, "devToolsInstallPath")) ==> s'.devToolsInstallPath == Property(weapp, "devToolsInstallPath"))
            && (!Truthy(Property(weapp, "devToolsInstallPath")) ==> s'.devToolsInstallPath == Str(DefaultDevToolsPath(env.platform)))
            && s'.pluginOpts == s.pluginOpts["weapp" := DeleteKey(weapp, "devToolsInstallPath")]
            && s'.instance == Some(GetWeappConfig(weapp))
            && s'.instance.value.fields["privateKeyPath"] == Property(weapp, "privateKeyPath")
  {
    DeleteInstallPathKeepsConfig(Field(s.pluginOpts, "weapp"));
  }

  /** A failure at the private key leaves `instance` as it was, though the SDK and install path are already set. */
  lemma InitKeyFailureKeepsInstance(s: DriverState, env: Env, io: Io)
    requires Truthy(Field(s.pluginOpts, "weapp")) && Npm.GetNpmPkgSync("miniprogram-ci", env.cwd, io).Success?
    requires InitStep(s, env, io).0.Failure?
    ensures var (r, s') := InitStep(s, env, io);
            && (r.error.PathNotAString? || r.error.PrivateKeyNotFound?)
            && s'.instance == s.instance && s'.ci.Some?
  {
  }

  /** The CLI inside the install directory (WeappCI.ts:127-130). */
  function CliPath(install: string, platform: OsPlatform, paths: PathOps): (r: string)
    ensures platform == Win32 ==> r == paths.join([install, "/cli.bat"])
    ensures platform != Win32 ==> r == paths.join([install, "/Contents/MacOS/cli"])
  {
    paths.join([install, if platform == Win32 then "/cli.bat" else "/Contents/MacOS/cli"])
  }

  /** The IDE status file under the user's home, keyed by the md5 of the install path (WeappCI.ts:134-139). */
  function IdeStatusSuffix(install: string, platform: OsPlatform, md5Hex: string -> string): (r: string)
    ensures var h := md5Hex(install);
            var tail := "/Default/.ide-status";
            Contains(r, h) && |r| >= |tail| && r[|r| - |tail|..] == tail
  {
    var h := md5Hex(install);
    var front := if platform == Win32 then "/AppData/Local/微信开发者工具/User Data/" else "/Library/Application Support/微信开发者工具/";
    var r := front + h + "/Default/.ide-status";
    ContainsAt(r, h, |front|);
    r
  }

  function IdeStatusFile(install: string, env: Env, io: Io): string {
    io.paths.join([HomeDir.GetUserHomeDir(env), IdeStatusSuffix(install, env.platform, io.md5Hex)])
  }

  /** `${this.projectPath}`: undefined until setProjectPath has run. */
  function ProjectPathText(projectPath: Option<string>): (r: string)
    ensures projectPath.Some? ==> r == projectPath.value
    ensures projectPath.None? ==> r == "undefined"
  {
    if projectPath.Some? then projectPath.value else "undefined"
  }

  /** How open ends: one of its three early returns, or the CLI command it runs. */
  datatype OpenResult =
    | InstallPathMissing
    | IdeStatusMissing(statusFile: string)
    | ServicePortOff(statusFile: string)
    | Launched(cliFound: bool, command: string)

  /** fs.pathExists on a value: a value that is not a path does not exist. */
  predicate PathExists(io: Io, v: Value) {
    v.Str? && io.pathExists(v.s)
  }

  /** The experience QR code content (WeappCI.ts:235). */
  function ExperienceQrContent(appid: Value): string {
    "https://open.weixin.qq.com/sns/getexpappinfo?appid=" + TemplateText(appid) + "#wechat-redirect"
  }

  /** The appid sits between the fixed prefix and suffix, so it can be read back from the content. */
  lemma ExperienceQrContentAppid(appid: Value)
    ensures var prefix := "https://open.weixin.qq.com/sns/getexpappinfo?appid=";
            var suffix := "#wechat-redirect";
            var r := ExperienceQrContent(appid);
            && |r| == |prefix| + |TemplateText(appid)| + |suffix|
            && StartsWith(r, prefix)
            && r[|prefix|..|r| - |suffix|] == TemplateText(appid)
            && r[|r| - |suffix|..] == suffix
  {
  }

  /** WeappCI (WeappCI.ts:38-261). */
  class WeappCI {
    const base: BaseCI
    var instance: Option<Value>
    var devToolsInstallPath: Value
    var ci: Option<ModuleRef>

    function State(): DriverState
      reads this, base
    {
      DriverState(base.pluginOpts, ci, devToolsInstallPath, instance)
    }

    /** WeappCI.ts:43-50 */
    constructor(pluginOpts: map<string, Value>, packageInfo: Value, localeTime: string)
      ensures fresh(base)
      ensures base.pluginOpts == pluginOpts && base.projectPath == None
      ensures base.version == DriverVersion(pluginOpts, packageInfo)
      ensures base.desc == DriverDesc(pluginOpts, localeTime)
      ensures instance == None && devToolsInstallPath == Str("") && ci == None
    {
      base := new BaseCI(pluginOpts, packageInfo, localeTime);
      instance := None;
      devToolsInstallPath := Str("");
      ci := None;
    }

    /** init (WeappCI.ts:56-81). */
    method Init(env: Env, io: Io) returns (r: Result<bool, Error>)
      modifies this, base`pluginOpts
      ensures (r, State()) == InitStep(old(State()), env, io)
    {
      var weapp := Field(base.pluginOpts, "weapp");
      if !Truthy(weapp) {
        return Failure(WeappOptionMissing);
      }
      var loaded := Npm.GetNpmPkgSync("miniprogram-ci", env.cwd, io);
      if loaded.Failure? {
        return Failure(SdkNotInstalled);
      }
      ci := Some(loaded.value);
      devToolsInstallPath := Or(Property(weapp, "devToolsInstallPath"), Str(DefaultDevToolsPath(env.platform)));
      base.pluginOpts := base.pluginOpts["weapp" := DeleteKey(weapp, "devToolsInstallPath")];
      var config := GetWeappConfig(Field(base.pluginOpts, "weapp"));
      var key := config.fields["privateKeyPath"];
      if !key.Str? {
        return Failure(PathNotAString(key));
      }
      var checked := KeyPathChecked(key.s, env.cwd, io.paths);
      if !io.pathExists(checked) {
        return Failure(PrivateKeyNotFound(checked));
      }
      instance := Some(config);
      r := Success(true);
    }

    /** open (WeappCI.ts:122-157): the guards in order; a missing CLI is only reported. */
    method Open(env: Env, io: Io) returns (r: OpenResult)
      ensures !PathExists(io, devToolsInstallPath) ==> r == InstallPathMissing
      ensures PathExists(io, devToolsInstallPath) ==>
                var status := IdeStatusFile(devToolsInstallPath.s, env, io);
                var cli := CliPath(devToolsInstallPath.s, env.platform, io.paths);
                && (!io.pathExists(status) ==> r == IdeStatusMissing(status))
                && (io.pathExists(status) && io.readFile(status) == "Off" ==> r == ServicePortOff(status))
                && (io.pathExists(status) && io.readFile(status) != "Off" ==>
                      r == Launched(io.pathExists(cli), cli + " open --project " + ProjectPathText(base.projectPath)))
      ensures r.Launched? <==>
                PathExists(io, devToolsInstallPath)
                && io.pathExists(IdeStatusFile(devToolsInstallPath.s, env, io))
                && io.readFile(IdeStatusFile(devToolsInstallPath.s, env, io)) != "Off"
    {
      if !PathExists(io, devToolsInstallPath) {
        return InstallPathMissing;
      }
      var install := devToolsInstallPath.s;
      var cliPath := CliPath(install, env.platform, io.paths);
      var ideStatusFile := IdeStatusFile(install, env, io);
      if !io.pathExists(ideStatusFile) {
        return IdeStatusMissing(ideStatusFile);
      }
      var ideStatus := io.readFile(ideStatusFile);
      if ideStatus == "Off" {
        return ServicePortOff(ideStatusFile);
      }
      var cliFound := io.pathExists(cliPath);
      r := Launched(cliFound, cliPath + " open --project " + ProjectPathText(base.projectPath));
    }

    /** The experience QR content upload prints, from the weapp appid (WeappCI.ts:235). */
    function UploadQrContent(): (r: string)
      reads base
      requires !IsNullish(Field(base.pluginOpts, "weapp"))
      ensures var prefix := "https://open.weixin.qq.com/sns/getexpappinfo?appid=";
              var suffix := "#wechat-redirect";
              && StartsWith(r, prefix) && |r| >= |prefix| + |suffix|
              && r[|prefix|..|r| - |suffix|] == TemplateText(Property(Field(base.pluginOpts, "weapp"), "appid"))
              && r[|r| - |suffix|..] == suffix
    {
      var appid := Property(Field(base.pluginOpts, "weapp"), "appid");
      ExperienceQrContentAppid(appid);
      ExperienceQrContent(appid)
    }
  }
}
