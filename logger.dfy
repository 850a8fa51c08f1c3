/**
 * src/utils/logger.ts: the log-level filter table, the module-level current level, the level
 * each logger method checks, and the line printLog composes. Colours and the console are not modelled.
 */
module Logger {
  import opened Wrappers
  import opened JsValue

  datatype LogLevel = Info | Debug | Warn | Error | Silent

  /** The string each LogLevel member stands for (logger.ts:3-9). */
  function LevelName(l: LogLevel): string {
    match l
    case Info => "info"
    case Debug => "debug"
    case Warn => "warn"
    case Error => "error"
    case Silent => "silent"
  }

  /** levelFilters[current](level) (logger.ts:87-93): SILENT admits nothing, DEBUG everything, and every level but SILENT admits errors. */
  predicate LevelFilter(current: LogLevel, level: LogLevel)
    ensures LevelFilter(current, level) ==> current != Silent
    ensures current == Debug ==> LevelFilter(current, level)
    ensures level == Error ==> (LevelFilter(current, level) <==> current != Silent)
  {
    match current
    case Info => level != Debug
    case Warn => level != Debug && level != Info
    case Error => level == Error
    case Debug => true
    case Silent => false
  }

  /** Severity of the four levels a logger method can check. */
  function Rank(l: LogLevel): nat
    requires l != Silent
  {
    match l
    case Debug => 0
    case Info => 1
    case Warn => 2
    case Error => 3
  }

  /** For the levels a message can carry, the table is a threshold: a message shows when it is at least as severe as the current level. */
  lemma FilterIsThreshold(current: LogLevel, level: LogLevel)
    requires level != Silent
    ensures LevelFilter(current, level) <==> current != Silent && Rank(level) >= Rank(current)
  {
  }

  /** Lowering the level never hides a message: ERROR < WARN < INFO < DEBUG in what they admit. */
  lemma FilterMonotone(level: LogLevel)
    ensures LevelFilter(Error, level) ==> LevelFilter(Warn, level)
    ensures LevelFilter(Warn, level) ==> LevelFilter(Info, level)
    ensures LevelFilter(Info, level) ==> LevelFilter(Debug, level)
    ensures !LevelFilter(Silent, level)
  {
  }

  /** Object.values(LogLevel).includes(level), decoding the value to its member. */
  function ParseLevel(v: Value): (r: Option<LogLevel>)
    ensures forall l :: r == Some(l) <==> v == Str(LevelName(l))
  {
    if v == Str("info") then Some(Info)
    else if v == Str("debug") then Some(Debug)
    else if v == Str("warn") then Some(Warn)
    else if v == Str("error") then Some(Error)
    else if v == Str("silent") then Some(Silent)
    else None
  }

  /** The methods of the object createLogger returns (logger.ts:112-175). */
  datatype LogMethod = InfoMethod | TaskMethod | WarnMethod | ErrorMethod | DebugMethod | SuccessMethod | LineMethod

  /** The level a method hands to the filter; `line` prints unconditionally. */
  function CheckedLevel(m: LogMethod): (r: Option<LogLevel>)
    ensures r == None <==> m == LineMethod
    ensures r != Some(Silent)
  {
    match m
    case InfoMethod => Some(Info)
    case TaskMethod => Some(Info)
    case SuccessMethod => Some(Info)
    case WarnMethod => Some(Warn)
    case ErrorMethod => Some(Error)
    case DebugMethod => Some(Debug)
    case LineMethod => None
  }

  /** Whether a call of method m prints at the given current level. */
  predicate Shows(current: LogLevel, m: LogMethod) {
    CheckedLevel(m).None? || LevelFilter(current, CheckedLevel(m).value)
  }

  /** The logger methods rank as their checked levels do: error shows whenever warn does, warn whenever info does, info whenever debug does. */
  lemma ShowsMonotone(current: LogLevel)
    ensures Shows(current, DebugMethod) ==> Shows(current, InfoMethod)
    ensures Shows(current, InfoMethod) ==> Shows(current, WarnMethod)
    ensures Shows(current, WarnMethod) ==> Shows(current, ErrorMethod)
    ensures Shows(current, InfoMethod) <==> Shows(current, TaskMethod) && Shows(current, SuccessMethod)
    ensures Shows(current, LineMethod)
    ensures Shows(current, ErrorMethod) <==> current != Silent
  {
  }

  /** The current levels at which each method prints: info, task and success at INFO and DEBUG, warn down from WARN, debug at DEBUG only. */
  lemma MethodPrintSets(current: LogLevel)
    ensures Shows(current, InfoMethod) <==> current == Info || current == Debug
    ensures Shows(current, TaskMethod) <==> current == Info || current == Debug
    ensures Shows(current, SuccessMethod) <==> current == Info || current == Debug
    ensures Shows(current, WarnMethod) <==> current == Warn || current == Info || current == Debug
    ensures Shows(current, ErrorMethod) <==> current != Silent
    ensures Shows(current, DebugMethod) <==> current == Debug
  {
  }

  /** The message text of the dashed line `line` prints. */
  function Line(): (r: string)
    ensures |r| == 80 && forall i :: 0 <= i < |r| ==> r[i] == '-'
  {
    seq(80, _ => '-')
  }

  /** processTypeMsg: the prefix text of each process type (logger.ts:65-81), keyed by the enum's string values. */
  const PROCESS_TYPE_MSG: map<string, string> := map[
    "create" := "创建", "modify" := "修改", "unlink" := "删除", "unlinkDir" := "删除目录",
    "warning" := "警告", "remind" := "提示", "error" := "错误", "start" := "开始",
    "compile" := "编译", "convert" := "转换", "copy" := "拷贝", "generate" := "生成",
    "compress" := "压缩", "reference" := "引用", "magic" := "魔法"]

  /** The level printLog files a process type under (logger.ts:184-190). */
  function PrintLevel(processType: string): (r: LogLevel)
    ensures r == Error <==> processType == "error"
    ensures r == Warn <==> processType == "warning"
    ensures r == Info <==> processType != "error" && processType != "warning"
  {
    if processType == "error" then Error else if processType == "warning" then Warn else Info
  }

  /** processTypeMsg[processType] || '未知' (logger.ts:192). */
  function Prefix(processType: string): (r: string)
    ensures r == "未知" <==> processType !in PROCESS_TYPE_MSG
    ensures processType in PROCESS_TYPE_MSG ==> r == PROCESS_TYPE_MSG[processType]
  {
    if processType in PROCESS_TYPE_MSG && PROCESS_TYPE_MSG[processType] != "" then PROCESS_TYPE_MSG[processType] else "未知"
  }

  /** extInfo ? `${msg} ${extInfo}` : msg (logger.ts:194); an absent extInfo is None. */
  function Message(msg: string, extInfo: Option<string>): (r: string)
    ensures extInfo.None? || extInfo == Some("") ==> r == msg
    ensures extInfo.Some? && extInfo.value != "" ==> |r| >= |msg| && r[..|msg|] == msg && r[|msg|..] == " " + extInfo.value
  {
    if extInfo.Some? && extInfo.value != "" then msg + " " + extInfo.value else msg
  }

  /**
   * The module-level state of logger.ts: the current log level, INFO when the module loads
   * (logger.ts:84).
   */
  class LogState {
    var currentLogLevel: LogLevel

    constructor()
      ensures currentLogLevel == Info
    {
      currentLogLevel := Info;
    }

    /** setLogLevel (logger.ts:99-106): a valid level is stored, anything else resets to INFO. */
    method SetLogLevel(level: Value)
      modifies this
      ensures ParseLevel(level).Some? ==> currentLogLevel == ParseLevel(level).value
      ensures ParseLevel(level).None? ==> currentLogLevel == Info
    {
      var parsed := ParseLevel(level);
      if parsed.Some? {
        currentLogLevel := parsed.value;
      } else {
        currentLogLevel := Info;
      }
    }

    /** Whether logger.<m>(...) prints now. */
    predicate Prints(m: LogMethod)
      reads this
    {
      Shows(currentLogLevel, m)
    }

    /** printLog (logger.ts:183-201): the line it prints, None when the filter drops it. */
    function PrintLog(processType: string, msg: string, extInfo: Option<string>): (r: Option<string>)
      reads this
      ensures r.Some? <==> LevelFilter(currentLogLevel, PrintLevel(processType))
      ensures r.Some? ==> var p := "[" + Prefix(processType) + "] ";
                          |r.value| >= |p| && r.value[..|p|] == p && r.value[|p|..] == Message(msg, extInfo)
    {
      if LevelFilter(currentLogLevel, PrintLevel(processType)) then
        Some("[" + Prefix(processType) + "] " + Message(msg, extInfo))
      else None
    }
  }

  /** Errors are printed at every level but SILENT; an unknown process type still prints at INFO. */
  lemma PrintLogErrorsAndUnknown(current: LogLevel, processType: string)
    ensures LevelFilter(current, PrintLevel("error")) <==> current != Silent
    ensures processType !in PROCESS_TYPE_MSG ==>
              (LevelFilter(current, PrintLevel(processType)) <==> current == Info || current == Debug)
  {
    if processType !in PROCESS_TYPE_MSG {
      assert processType != "error" && processType != "warning";
    }
  }
}
