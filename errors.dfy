/** The errors the pipeline throws, with the message text each one carries. */
module Errors {
  import opened JsValue

  datatype Error =
    | UnsupportedPlatform(platform: Value)          // src/index.ts:35
    | UnsupportedMiniProgram(name: string)      // src/platforms/index.ts:26
    | MissingConfig(field: string)                  // src/core/config.ts:70
    | CannotReadProperty(holder: Value, key: string)  // TypeError: a property read on undefined or null
    | UnsupportedAction(action: Value)              // src/index.ts:76
    | MustImplement(operation: string)                 // src/core/BaseCi.ts:43-58
    | WeappOptionMissing                            // src/platforms/weapp/WeappCI.ts:59
    | SdkNotInstalled                               // src/platforms/weapp/WeappCI.ts:65
    | PrivateKeyNotFound(path: string)              // src/platforms/weapp/WeappCI.ts:78
    | PathNotAString(received: Value)               // TypeError: path.isAbsolute of a non-string
    | PackageJsonUnreadable(cause: string)          // src/core/BaseCi.ts:24-28: readFileSync or JSON.parse throws
    | ImportFailed(name: string, cause: string)     // src/utils/npm.ts:52
    | ResolveFailed(name: string, cause: string)    // src/utils/npm.ts:29: resolve.sync throws

  /** error.message */
  function Message(e: Error): string {
    match e
    case UnsupportedPlatform(p) => "不支持的平台: " + TemplateText(p)
    case UnsupportedMiniProgram(p) => "不支持的小程序平台: " + p
    case MissingConfig(f) => "缺少必要配置: " + f
    case CannotReadProperty(h, k) => "Cannot read properties of " + TemplateText(h) + " (reading '" + k + "')"
    case UnsupportedAction(a) => "不支持的操作类型: " + TemplateText(a)
    case MustImplement(m) => "Must implement " + m + " method"
    case WeappOptionMissing => "请为\"unicore-mini-ci\"插件配置 \"weapp\" 选项"
    case SdkNotInstalled => "Dependency miniprogram-ci is not installed"
    case PrivateKeyNotFound(p) => "\"weapp.privateKeyPath\"选项配置的路径不存在,本次上传终止:" + p
    case PathNotAString(_) => "The \"path\" argument must be of type string"
    case PackageJsonUnreadable(c) => c
    case ImportFailed(n, c) => "无法导入包 " + n + "，请确保它已安装。错误: " + c
    case ResolveFailed(_, c) => c
  }
}
