/** src/core/config.ts: the layered configuration and its validation. */
module Config {
  import opened Wrappers
  import opened JsValue
  import opened ObjectUtils
  import opened Errors
  import Strings

  /** DEFAULT_CONFIG (config.ts:22-31); projectPath is process.cwd() when the module is loaded. */
  function DefaultConfig(cwd: string): (r: Value)
    ensures r.Plain? && r.fields.Keys == {"logLevel", "projectPath", "robot", "setting"}
    ensures r.fields["projectPath"] == Str(cwd)
    ensures forall k :: k in r.fields && k != "projectPath" ==> Truthy(r.fields[k])
  {
    Plain(map[
      "logLevel" := Str("info"),
      "projectPath" := Str(cwd),
      "robot" := Num(1),
      "setting" := Plain(map["es6" := Bool(true), "minify" := Bool(true), "autoPrefixWXSS" := Bool(true)])])
  }

  /** PLATFORM_DEFAULT_CONFIG (config.ts:34-51): every known mini-program platform has type 'miniProgram'. */
  const PLATFORM_DEFAULT_CONFIG: map<string, Value> :=
    map[
      "weapp" := Plain(map["type" := Str("miniProgram")]),
      "alipay" := Plain(map["type" := Str("miniProgram")]),
      "swan" := Plain(map["type" := Str("miniProgram")]),
      "tiktok" := Plain(map["type" := Str("miniProgram")])]

  /** `PLATFORM_DEFAULT_CONFIG[platform] || {}` (config.ts:57): {type: 'miniProgram'} for the four known platforms, else {}. */
  function PlatformDefaults(platform: string): (r: Value)
    ensures platform in PLATFORM_DEFAULT_CONFIG <==> platform == "weapp" || platform == "alipay" || platform == "swan" || platform == "tiktok"
    ensures platform in PLATFORM_DEFAULT_CONFIG ==> r == Plain(map["type" := Str("miniProgram")])
    ensures platform !in PLATFORM_DEFAULT_CONFIG ==> r == Plain(map[])
  {
    if platform in PLATFORM_DEFAULT_CONFIG then PLATFORM_DEFAULT_CONFIG[platform] else Plain(map[])
  }

  /** The parameter default: createConfig(undefined, p) merges {}. */
  function UserLayer(userConfig: Value): Value {
    if userConfig == Undef then Plain(map[]) else userConfig
  }

  /** createConfig (config.ts:56-60): deepMerge({}, DEFAULT_CONFIG, platformDefaults, userConfig). */
  function CreateConfig(userConfig: Value, platform: string, cwd: string): (r: Value)
    ensures r.Plain?
  {
    var layers := [DefaultConfig(cwd), PlatformDefaults(platform), UserLayer(userConfig)];
    MergeAllKeepsPlain(Plain(map[]), layers);
    MergeAll(Plain(map[]), layers)
  }

  /** The two default layers merged: global defaults, then the platform's. */
  function LayeredDefaults(platform: string, cwd: string): Value {
    Merge(DefaultConfig(cwd), PlatformDefaults(platform))
  }

  /** createConfig layers the user's options over the merged defaults, in a fresh object. */
  lemma CreateConfigLayers(userConfig: Value, platform: string, cwd: string)
    ensures CreateConfig(userConfig, platform, cwd) == Merge(LayeredDefaults(platform, cwd), UserLayer(userConfig))
  {
    var d, p, u := DefaultConfig(cwd), PlatformDefaults(platform), UserLayer(userConfig);
    MergeIntoEmptyCopies(d);
    calc {
      MergeAll(Plain(map[]), [d, p, u]);
      MergeAll(Merge(Plain(map[]), d), [p, u]);
      MergeAll(d, [p, u]);
      { assert [p, u][1..] == [u]; }
      MergeAll(Merge(d, p), [u]);
      { assert [u][1..] == []; }
      Merge(Merge(d, p), u);
    }
  }

  /** A known platform adds type 'miniProgram' to the global defaults; any other name adds nothing and raises nothing. */
  lemma LayeredDefaultsValue(platform: string, cwd: string)
    ensures platform in PLATFORM_DEFAULT_CONFIG ==>
              LayeredDefaults(platform, cwd) == Plain(DefaultConfig(cwd).fields["type" := Str("miniProgram")])
    ensures platform !in PLATFORM_DEFAULT_CONFIG ==> LayeredDefaults(platform, cwd) == DefaultConfig(cwd)
  {
    var d := DefaultConfig(cwd);
    var l := LayeredDefaults(platform, cwd);
    if platform in PLATFORM_DEFAULT_CONFIG {
      assert l.fields.Keys == d.fields.Keys + {"type"};
      assert l.fields == d.fields["type" := Str("miniProgram")];
    } else {
      assert l.fields.Keys == d.fields.Keys;
      assert l.fields == d.fields;
    }
  }

  /** Merging an empty user layer over the layered defaults leaves them as they are. */
  lemma CreateConfigOfEmpty(platform: string, cwd: string)
    ensures CreateConfig(Plain(map[]), platform, cwd) == LayeredDefaults(platform, cwd)
  {
    CreateConfigLayers(Plain(map[]), platform, cwd);
    LayeredDefaultsValue(platform, cwd);
    var l := LayeredDefaults(platform, cwd);
    var c := CreateConfig(Plain(map[]), platform, cwd);
    assert c.fields.Keys == l.fields.Keys;
  }

  /** Without user overrides the configuration is the layered defaults (config.ts:22-31, 34-51). */
  lemma CreateConfigDefaults(platform: string, cwd: string)
    ensures var c := CreateConfig(Plain(map[]), platform, cwd);
            && At(c, ["logLevel"]) == Some(Str("info"))
            && At(c, ["projectPath"]) == Some(Str(cwd))
            && At(c, ["robot"]) == Some(Num(1))
            && (platform in PLATFORM_DEFAULT_CONFIG ==> At(c, ["type"]) == Some(Str("miniProgram")))
            && (platform !in PLATFORM_DEFAULT_CONFIG ==> "type" !in c.fields)
  {
    CreateConfigOfEmpty(platform, cwd);
    LayeredDefaultsValue(platform, cwd);
  }

  /** ... and the compiler settings are all on. */
  lemma CreateConfigDefaultSetting(platform: string, cwd: string)
    ensures var c := CreateConfig(Plain(map[]), platform, cwd);
            && At(c, ["setting", "es6"]) == Some(Bool(true))
            && At(c, ["setting", "minify"]) == Some(Bool(true))
            && At(c, ["setting", "autoPrefixWXSS"]) == Some(Bool(true))
  {
    CreateConfigOfEmpty(platform, cwd);
    LayeredDefaultsValue(platform, cwd);
  }

  /**
   * Precedence global < platform < user (config.ts:59): a non-plain leaf of the user's
   * options is in the result unless a truthy non-plain default blocks the way down to it ...
   */
  lemma UserLeafWins(userConfig: Value, platform: string, cwd: string, path: seq<string>, leaf: Value)
    requires |path| >= 1 && OpenAlong(LayeredDefaults(platform, cwd), path)
    requires At(userConfig, path) == Some(leaf) && !leaf.Plain?
    ensures At(CreateConfig(userConfig, platform, cwd), path) == Some(leaf)
  {
    CreateConfigLayers(userConfig, platform, cwd);
    SourceLeafWins(LayeredDefaults(platform, cwd), userConfig, path, leaf);
  }

  /** ... a default leaf stays unless the user's options set something at or above it ... */
  lemma DefaultLeafKept(userConfig: Value, platform: string, cwd: string, path: seq<string>, leaf: Value)
    requires |path| >= 1 && Spares(UserLayer(userConfig), path)
    requires At(LayeredDefaults(platform, cwd), path) == Some(leaf)
    ensures At(CreateConfig(userConfig, platform, cwd), path) == Some(leaf)
  {
    CreateConfigLayers(userConfig, platform, cwd);
    TargetLeafKept(LayeredDefaults(platform, cwd), UserLayer(userConfig), path, leaf);
  }

  /** ... and the platform's type goes to the top level, where a user type replaces it. */
  lemma TypePrecedence(userConfig: Value, platform: string, cwd: string)
    requires platform in PLATFORM_DEFAULT_CONFIG
    ensures userConfig.Plain? && "type" in userConfig.fields && !userConfig.fields["type"].Plain? ==>
              At(CreateConfig(userConfig, platform, cwd), ["type"]) == Some(userConfig.fields["type"])
    ensures !(userConfig.Plain? && "type" in userConfig.fields) ==>
              At(CreateConfig(userConfig, platform, cwd), ["type"]) == Some(Str("miniProgram"))
  {
    CreateConfigLayers(userConfig, platform, cwd);
    LayeredDefaultsValue(platform, cwd);
    if UserLayer(userConfig).Plain? {
      MergeFields(LayeredDefaults(platform, cwd), UserLayer(userConfig), "type");
    }
  }

  /** The scenario createConfig({weapp: {appid: 'wx123'}}, 'weapp'). */
  lemma CreateConfigScenario(cwd: string)
    ensures var c := CreateConfig(Plain(map["weapp" := Plain(map["appid" := Str("wx123")])]), "weapp", cwd);
            && At(c, ["setting", "es6"]) == Some(Bool(true))
            && At(c, ["setting", "minify"]) == Some(Bool(true))
            && At(c, ["robot"]) == Some(Num(1))
            && At(c, ["weapp", "appid"]) == Some(Str("wx123"))
  {
    var u := Plain(map["weapp" := Plain(map["appid" := Str("wx123")])]);
    var s := ["setting"];
    DefaultLeafKept(u, "weapp", cwd, ["setting", "es6"], Bool(true));
    DefaultLeafKept(u, "weapp", cwd, ["setting", "minify"], Bool(true));
    DefaultLeafKept(u, "weapp", cwd, ["robot"], Num(1));
    LayeredDefaultsValue("weapp", cwd);
    UserLeafWins(u, "weapp", cwd, ["weapp", "appid"], Str("wx123"));
  }

  /** requiredFields (config.ts:66). */
  const REQUIRED_FIELDS: seq<string> := ["appid"]

  /**
   * requiredFields.forEach (config.ts:68-72): reading a field of undefined throws a TypeError,
   * and the first falsy field throws the named error.
   */
  function CheckFields(platformConfig: Value, fields: seq<string>): (r: Result<bool, Error>)
    ensures r.Success? ==> r.value
    ensures r.Success? <==>
              fields == [] || (!IsNullish(platformConfig) && forall i :: 0 <= i < |fields| ==> Truthy(Property(platformConfig, fields[i])))
    ensures r.Failure? && IsNullish(platformConfig) ==> |fields| >= 1 && r.error == CannotReadProperty(platformConfig, fields[0])
    ensures r.Failure? && !IsNullish(platformConfig) ==>
              exists i :: 0 <= i < |fields| && r.error == MissingConfig(fields[i]) && !Truthy(Property(platformConfig, fields[i]))
                          && forall j :: 0 <= j < i ==> Truthy(Property(platformConfig, fields[j]))
    decreases |fields|
  {
    if fields == [] then Success(true)
    else if IsNullish(platformConfig) then Failure(CannotReadProperty(platformConfig, fields[0]))
    else if !Truthy(Property(platformConfig, fields[0])) then Failure(MissingConfig(fields[0]))
    else
      var r := CheckFields(platformConfig, fields[1..]);
      assert forall i :: 1 <= i < |fields| ==> fields[i] == fields[1..][i - 1];
      assert r.Failure? ==>
               exists i :: 0 <= i < |fields| && r.error == MissingConfig(fields[i]) && !Truthy(Property(platformConfig, fields[i]))
                           && forall j :: 0 <= j < i ==> Truthy(Property(platformConfig, fields[j])) by {
        if r.Failure? {
          var i :| 0 <= i < |fields[1..]| && r.error == MissingConfig(fields[1..][i]) && !Truthy(Property(platformConfig, fields[1..][i]))
                   && forall j :: 0 <= j < i ==> Truthy(Property(platformConfig, fields[1..][j]));
          assert forall j :: 0 <= j < i + 1 ==> Truthy(Property(platformConfig, fields[j])) by {
            forall j | 0 <= j < i + 1 ensures Truthy(Property(platformConfig, fields[j])) {
              if j > 0 { assert fields[j] == fields[1..][j - 1]; }
            }
          }
          assert fields[i + 1] == fields[1..][i];
        }
      }
      r
  }

  /** validateConfig (config.ts:65-75). */
  function ValidateConfig(config: Value, platform: string): (r: Result<bool, Error>)
    requires !IsNullish(config)
    ensures r == Success(true) <==>
              !IsNullish(Property(config, platform)) && Truthy(Property(Property(config, platform), "appid"))
    ensures r.Failure? && IsNullish(Property(config, platform)) ==>
              r.error == CannotReadProperty(Property(config, platform), "appid")
    ensures r.Failure? && !IsNullish(Property(config, platform)) ==> r.error == MissingConfig("appid")
  {
    CheckFields(Property(config, platform), REQUIRED_FIELDS)
  }

  /** The validation error names the missing field. */
  lemma ValidateConfigNamesAppid(config: Value, platform: string)
    requires !IsNullish(config) && ValidateConfig(config, platform).Failure?
    ensures Strings.Contains(Message(ValidateConfig(config, platform).error), "appid")
  {
    var m := Message(ValidateConfig(config, platform).error);
    if IsNullish(Property(config, platform)) {
      Strings.ContainsAt(m, "appid", |m| - 7);
    } else {
      Strings.ContainsAt(m, "appid", |m| - 5);
    }
  }
}
