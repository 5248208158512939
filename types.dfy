/**
 * The outcome of one diagnostic check and the final report (src/types.rs).
 */
module Types {
  import opened Options

  /** Severity of a check's outcome; serialised as "ok", "warning", "error". */
  datatype CheckStatus = Ok | Warning | Error

  /** The symbol the human-readable output prints before a check's status. */
  function Emoji(s: CheckStatus): (e: string)
    ensures e != []
  {
    match s
    case Ok => "\U{2705}"
    case Warning => "\U{26A0}\U{FE0F}"
    case Error => "\U{274C}"
  }

  /** Each status has its own symbol. */
  lemma EmojiDistinct(a: CheckStatus, b: CheckStatus)
    ensures Emoji(a) == Emoji(b) <==> a == b
  {
  }

  /** One check's verdict: which check, how bad, why, what to do, and the raw evidence. */
  datatype CheckResult = CheckResult(
    name: string,
    status: CheckStatus,
    message: string,
    suggestion: Option<string>,
    debugInfo: Option<string>)

  /** `CheckResult::ok`: a passing check carries no suggestion and no evidence. */
  function OkResult(name: string, message: string): (r: CheckResult)
    ensures r.status == Ok && r.name == name && r.message == message
    ensures r.suggestion == None && r.debugInfo == None
  {
    CheckResult(name, Ok, message, None, None)
  }

  /** `CheckResult::warning`: a warning always carries a suggestion. */
  function WarningResult(name: string, message: string, suggestion: string): (r: CheckResult)
    ensures r.status == Warning && r.name == name && r.message == message
    ensures r.suggestion == Some(suggestion) && r.debugInfo == None
  {
    CheckResult(name, Warning, message, Some(suggestion), None)
  }

  /** `CheckResult::error`: an error always carries a suggestion. */
  function ErrorResult(name: string, message: string, suggestion: string): (r: CheckResult)
    ensures r.status == Error && r.name == name && r.message == message
    ensures r.suggestion == Some(suggestion) && r.debugInfo == None
  {
    CheckResult(name, Error, message, Some(suggestion), None)
  }

  /** `CheckResult::with_debug`: attaches evidence and changes nothing else. */
  function WithDebug(r: CheckResult, debug: string): (r': CheckResult)
    ensures r'.debugInfo == Some(debug)
    ensures r'.name == r.name && r'.status == r.status
    ensures r'.message == r.message && r'.suggestion == r.suggestion
  {
    r.(debugInfo := Some(debug))
  }

  /** The aggregated diagnosis: every check in order, a summary, a root cause and fixes. */
  datatype DiagnosticReport = DiagnosticReport(
    checks: seq<CheckResult>,
    summary: string,
    probableCause: Option<string>,
    suggestedFixes: seq<string>)
}
