/** The handler's classification tables: PHP error codes, their `E_*`
    names, their PSR-3 log levels and which of them count as fatal. */
module ErrorClassification {

  /** The fifteen error kinds PHP names, plus any other code. */
  datatype ErrorKind =
    | E_ERROR | E_WARNING | E_PARSE | E_NOTICE
    | E_CORE_ERROR | E_CORE_WARNING | E_COMPILE_ERROR | E_COMPILE_WARNING
    | E_USER_ERROR | E_USER_WARNING | E_USER_NOTICE | E_STRICT
    | E_RECOVERABLE_ERROR | E_DEPRECATED | E_USER_DEPRECATED
    | Other(code: int)

  /** The integer value PHP gives each named kind. */
  function CodeOf(k: ErrorKind): int {
    match k
    case E_ERROR => 1
    case E_WARNING => 2
    case E_PARSE => 4
    case E_NOTICE => 8
    case E_CORE_ERROR => 16
    case E_CORE_WARNING => 32
    case E_COMPILE_ERROR => 64
    case E_COMPILE_WARNING => 128
    case E_USER_ERROR => 256
    case E_USER_WARNING => 512
    case E_USER_NOTICE => 1024
    case E_STRICT => 2048
    case E_RECOVERABLE_ERROR => 4096
    case E_DEPRECATED => 8192
    case E_USER_DEPRECATED => 16384
    case Other(c) => c
  }

  /** The kind an integer code stands for; codes outside the table are `Other`. */
  function KindOf(code: int): (k: ErrorKind)
    ensures CodeOf(k) == code
  {
    if code == 1 then E_ERROR
    else if code == 2 then E_WARNING
    else if code == 4 then E_PARSE
    else if code == 8 then E_NOTICE
    else if code == 16 then E_CORE_ERROR
    else if code == 32 then E_CORE_WARNING
    else if code == 64 then E_COMPILE_ERROR
    else if code == 128 then E_COMPILE_WARNING
    else if code == 256 then E_USER_ERROR
    else if code == 512 then E_USER_WARNING
    else if code == 1024 then E_USER_NOTICE
    else if code == 2048 then E_STRICT
    else if code == 4096 then E_RECOVERABLE_ERROR
    else if code == 8192 then E_DEPRECATED
    else if code == 16384 then E_USER_DEPRECATED
    else Other(code)
  }

  /** Every named kind is recovered from its own code. */
  lemma KindOfCodeOf(k: ErrorKind)
    requires !k.Other?
    ensures KindOf(CodeOf(k)) == k
  {
  }

  /** The name `getErrorType` gives a kind. */
  function KindName(k: ErrorKind): string {
    match k
    case E_ERROR => "E_ERROR"
    case E_WARNING => "E_WARNING"
    case E_PARSE => "E_PARSE"
    case E_NOTICE => "E_NOTICE"
    case E_CORE_ERROR => "E_CORE_ERROR"
    case E_CORE_WARNING => "E_CORE_WARNING"
    case E_COMPILE_ERROR => "E_COMPILE_ERROR"
    case E_COMPILE_WARNING => "E_COMPILE_WARNING"
    case E_USER_ERROR => "E_USER_ERROR"
    case E_USER_WARNING => "E_USER_WARNING"
    case E_USER_NOTICE => "E_USER_NOTICE"
    case E_STRICT => "E_STRICT"
    case E_RECOVERABLE_ERROR => "E_RECOVERABLE_ERROR"
    case E_DEPRECATED => "E_DEPRECATED"
    case E_USER_DEPRECATED => "E_USER_DEPRECATED"
    case Other(_) => "unknown"
  }

  /** `getErrorType`: total over all integers; only codes outside the table
      are called "unknown", and every named kind is called by its own
      `E_` name. */
  function ErrorType(code: int): (name: string)
    ensures name == "unknown" <==> KindOf(code).Other?
    ensures !KindOf(code).Other? ==> |name| > 2 && name[..2] == "E_"
  {
    KindName(KindOf(code))
  }

  /** The logged type identifies the code: two codes from the table that
      are given the same name are the same code. */
  lemma ErrorTypeIdentifiesCode(a: int, b: int)
    ensures !KindOf(a).Other? && ErrorType(a) == ErrorType(b) ==> a == b
  {
    if !KindOf(a).Other? && ErrorType(a) == ErrorType(b) {
      assert !KindOf(b).Other?;
      KindNameInjective(KindOf(a), KindOf(b));
    }
  }

  /** Distinct kinds have distinct names, "unknown" aside. */
  lemma KindNameInjective(j: ErrorKind, k: ErrorKind)
    requires !j.Other? && !k.Other?
    ensures KindName(j) == KindName(k) ==> j == k
  {
  }

  /** PSR-3 log levels, most severe first. */
  datatype LogLevel = Emergency | Alert | Critical | Error | Warning | Notice | Info | Debug

  /** The kinds whose level is raised from ERROR to CRITICAL when they are
      seen uncaught (while shutting down). */
  predicate EscalatesWhenUncaught(k: ErrorKind) {
    k == E_ERROR || k == E_RECOVERABLE_ERROR || k == E_USER_ERROR
  }

  /** The kinds that are CRITICAL whatever the context. */
  predicate AlwaysCritical(k: ErrorKind) {
    k == E_PARSE || k == E_CORE_ERROR || k == E_COMPILE_ERROR
  }

  /** `getErrorLevel`, with the handler's `isShuttingDown` flag passed as
      `uncaught`. */
  function ErrorLevel(code: int, uncaught: bool): (level: LogLevel)
    ensures level != Alert && level != Emergency && level != Debug
    ensures level == Critical <==> AlwaysCritical(KindOf(code)) || (uncaught && EscalatesWhenUncaught(KindOf(code)))
    ensures level == Error <==> !uncaught && EscalatesWhenUncaught(KindOf(code))
    ensures KindOf(code).Other? ==> level == Info
  {
    match KindOf(code)
    case E_ERROR => if uncaught then Critical else Error
    case E_RECOVERABLE_ERROR => if uncaught then Critical else Error
    case E_WARNING => Warning
    case E_PARSE => Critical
    case E_NOTICE => Notice
    case E_STRICT => Info
    case E_DEPRECATED => Info
    case E_CORE_ERROR => Critical
    case E_CORE_WARNING => Warning
    case E_COMPILE_ERROR => Critical
    case E_COMPILE_WARNING => Warning
    case E_USER_ERROR => if uncaught then Critical else Error
    case E_USER_WARNING => Warning
    case E_USER_NOTICE => Notice
    case E_USER_DEPRECATED => Info
    case Other(_) => Info
  }

  /** The shutting-down flag changes the level of exactly the three kinds
      that escalate; for them it is CRITICAL when set and ERROR when not. */
  lemma ErrorLevelDependsOnFlagOnlyForErrors(code: int)
    ensures ErrorLevel(code, true) != ErrorLevel(code, false) <==> EscalatesWhenUncaught(KindOf(code))
    ensures EscalatesWhenUncaught(KindOf(code)) ==> ErrorLevel(code, true) == Critical && ErrorLevel(code, false) == Error
  {
  }

  /** `isFatalError`: the level is one of CRITICAL, ALERT, EMERGENCY. Since
      no code is logged at ALERT or EMERGENCY, that is CRITICAL, and only
      codes from the table are fatal. */
  function IsFatalError(code: int, uncaught: bool): (fatal: bool)
    ensures fatal <==> ErrorLevel(code, uncaught) == Critical
    ensures fatal ==> !KindOf(code).Other?
  {
    ErrorLevel(code, uncaught) in {Critical, Alert, Emergency}
  }

  /** Which codes are fatal: parse, core and compile errors always; runtime,
      recoverable and user errors exactly when shutting down; nothing else. */
  lemma FatalErrorKinds(code: int, uncaught: bool)
    ensures IsFatalError(code, uncaught) <==>
              AlwaysCritical(KindOf(code)) || (uncaught && EscalatesWhenUncaught(KindOf(code)))
  {
  }

  /** Shutting down only ever adds fatal codes. */
  lemma FatalWhileRunningIsFatalAtShutdown(code: int)
    requires IsFatalError(code, false)
    ensures IsFatalError(code, true)
  {
  }
}
