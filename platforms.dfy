/** src/platforms/index.ts: the static registry of platform drivers and the driver factory. */
module Platforms {
  import opened Wrappers
  import opened JsValue
  import opened Host
  import opened Errors
  import opened Weapp

  /** The driver classes; only the WeChat one is registered. */
  datatype Driver = WeappDriver

  /** PLATFORM_MAP (platforms/index.ts:12-17). */
  const PLATFORM_MAP: map<string, Driver> := map["weapp" := WeappDriver]

  /** PLATFORM_MAP[platform], undefined for a name it does not hold. */
  function LookupDriver(platform: string): (r: Option<Driver>)
    ensures r.Some? <==> platform in PLATFORM_MAP
    ensures r.Some? ==> r.value == PLATFORM_MAP[platform]
  {
    if platform in PLATFORM_MAP then Some(PLATFORM_MAP[platform]) else None
  }

  /** getSupportedPlatforms (platforms/index.ts:35-37): Object.keys(PLATFORM_MAP), in insertion order. */
  function GetSupportedPlatforms(): (r: seq<string>)
    ensures forall i, j :: 0 <= i < j < |r| ==> r[i] != r[j]
    ensures forall name :: name in r <==> name in PLATFORM_MAP
  {
    ["weapp"]
  }

  /** The supported list and the factory read the same table: the factory rejects exactly the names the list leaves out. */
  lemma FactoryRejectsExactlyUnsupported(platform: string)
    ensures LookupDriver(platform).None? <==> platform !in GetSupportedPlatforms()
  {
  }

  /**
   * createPlatformCIFactory (platforms/index.ts:22-30). Constructing the driver reads and
   * parses package.json (BaseCi.ts:23-28); when that throws, so does the factory.
   */
  method CreatePlatformCIFactory(platform: string, options: map<string, Value>, env: Env)
    returns (r: Result<WeappCI, Error>)
    ensures platform !in PLATFORM_MAP ==> r == Failure(UnsupportedMiniProgram(platform))
    ensures platform in PLATFORM_MAP && env.packageJson.Unreadable? ==>
              r == Failure(PackageJsonUnreadable(env.packageJson.cause))
    ensures platform in PLATFORM_MAP && env.packageJson.Parsed? ==> r.Success?
    ensures r.Success? ==>
              var ci := r.value;
              && fresh(ci) && fresh(ci.base)
              && ci.base.pluginOpts == options && ci.base.projectPath == None
              && ci.base.version == BaseCi.DriverVersion(options, env.packageJson.json)
              && ci.base.desc == BaseCi.DriverDesc(options, env.localeTimeNow)
              && ci.instance == None && ci.devToolsInstallPath == Str("") && ci.ci == None
  {
    var driver := LookupDriver(platform);
    if driver.None? {
      return Failure(UnsupportedMiniProgram(platform));
    }
    match env.packageJson
    case Unreadable(cause) =>
      r := Failure(PackageJsonUnreadable(cause));
    case Parsed(json) =>
      var ci := new WeappCI(options, json, env.localeTimeNow);
      r := Success(ci);
  }
}
