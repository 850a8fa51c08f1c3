/**
 * src/core/BaseCi.ts: the state every platform driver starts from, and the operations a
 * driver must supply. The package.json the constructor reads is passed in already parsed;
 * a package.json that cannot be read or parsed makes construction fail, which is modelled
 * where drivers are constructed (module Platforms).
 */
module BaseCi {
  import opened JsValue
  import opened Wrappers
  import opened Errors
  import opened Strings

  /** The version a driver uploads with: the option when truthy, else packageInfo?.version (BaseCi.ts:29). */
  function DriverVersion(pluginOpts: map<string, Value>, packageInfo: Value): (r: Value)
    ensures Truthy(Field(pluginOpts, "version")) ==> r == Field(pluginOpts, "version")
    ensures !Truthy(Field(pluginOpts, "version")) ==> r == OptionalProperty(packageInfo, "version")
  {
    Or(Field(pluginOpts, "version"), OptionalProperty(packageInfo, "version"))
  }

  /** The description: the option when truthy, else a text stamped with the locale time (BaseCi.ts:30). */
  function DriverDesc(pluginOpts: map<string, Value>, localeTime: string): (r: Value)
    ensures Truthy(r)
    ensures Truthy(Field(pluginOpts, "desc")) ==> r == Field(pluginOpts, "desc")
    ensures !Truthy(Field(pluginOpts, "desc")) ==> r == Str("CI构建自动构建于" + localeTime)
  {
    Or(Field(pluginOpts, "desc"), Str("CI构建自动构建于" + localeTime))
  }

  /** The operations a subclass must override. */
  datatype Operation = InitOp | OpenOp | UploadOp | PreviewOp

  function OperationName(op: Operation): string {
    match op
    case InitOp => "init"
    case OpenOp => "open"
    case UploadOp => "upload"
    case PreviewOp => "preview"
  }

  /** The base init, open, upload and preview (BaseCi.ts:42-59): each raises, naming itself. */
  function Unimplemented(op: Operation): (r: Result<bool, Error>)
    ensures r.Failure? && r.error.MustImplement?
    ensures Contains(Message(r.error), OperationName(op))
  {
    var r := Failure(MustImplement(OperationName(op)));
    ContainsAt(Message(r.error), OperationName(op), |"Must implement "|);
    r
  }

  /** Each stub's message tells which operation is missing. */
  lemma UnimplementedDistinct(op1: Operation, op2: Operation)
    requires op1 != op2
    ensures Message(Unimplemented(op1).error) != Message(Unimplemented(op2).error)
  {
    var p := "Must implement ";
    var m1, m2 := Message(Unimplemented(op1).error), Message(Unimplemented(op2).error);
    assert m1 == p + OperationName(op1) + " method";
    assert m2 == p + OperationName(op2) + " method";
    assert m1[|p|] == OperationName(op1)[0] && m2[|p|] == OperationName(op2)[0];
  }

  /** BaseCI (BaseCi.ts:12-60). */
  class BaseCI {
    var pluginOpts: map<string, Value>
    var version: Value
    var desc: Value
    var projectPath: Option<string>

    /** BaseCi.ts:21-32 */
    constructor(pluginOpts: map<string, Value>, packageInfo: Value, localeTime: string)
      ensures this.pluginOpts == pluginOpts
      ensures version == DriverVersion(pluginOpts, packageInfo)
      ensures desc == DriverDesc(pluginOpts, localeTime)
      ensures projectPath == None
    {
      this.pluginOpts := pluginOpts;
      version := Or(Field(pluginOpts, "version"), OptionalProperty(packageInfo, "version"));
      desc := Or(Field(pluginOpts, "desc"), Str("CI构建自动构建于" + localeTime));
      projectPath := None;
    }

    /** setProjectPath (BaseCi.ts:37-39): only the project path changes. */
    method SetProjectPath(path: string)
      modifies this`projectPath
      ensures projectPath == Some(path)
    {
      projectPath := Some(path);
    }
  }
}
