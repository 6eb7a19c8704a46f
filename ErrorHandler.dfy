/** The error handler: its configuration, the non-fatal error entry point,
    the end-of-script check and the fatal-error path that stages a
    placeholder before running the fatal callback. */
module ErrorHandler {
  import opened Wrappers
  import opened PhpValues
  import opened ErrorClassification
  import opened ErrorFormatting
  import opened OutputBuffering

  /** An error as PHP reports it to a handler or through `error_get_last()`. */
  datatype ErrorRecord = ErrorRecord(code: int, message: string, file: string, line: int)

  /** The exception object handed to a callback: the formatted error string
      and the error code. */
  datatype ErrorException =
    | PhpErrorException(message: string, code: int)
    | PhpFatalErrorException(message: string, code: int)

  /** What running a user callback does: it echoes some text and then either
      returns a value or ends the script with a fatal error, which becomes
      the last error PHP reports. */
  datatype Reaction =
    | Returned(echoed: string, value: PhpValue)
    | Aborted(echoed: string, lastError: ErrorRecord)

  type ErrorCallback = ErrorException -> Reaction
  type UnrecoverableErrorCallback = () -> Reaction

  /** One call made to the logger. */
  datatype LogEntry = LogEntry(level: LogLevel, message: string)

  /** The logger, reduced to which calls return and which throw. */
  datatype Logger = Logger(succeeds: LogEntry -> bool)

  /** How a call of `handleError` ends: it returns its boolean, an exception
      escapes from it, or the script is ended by a fatal error. */
  datatype ErrorOutcome =
    | Result(handled: bool)
    | Threw
    | Terminated(lastError: ErrorRecord)

  /** How the fatal-error path ends: it runs to completion, or a callback
      ends the script with a further fatal error. */
  datatype FatalOutcome = Completed | Interrupted(lastError: ErrorRecord)

  const DEFAULT_UNRECOVERABLE_ERROR_MESSAGE: string := "An error occured, please try again later."
  const STRICT_MODE_PREFIX: string := "[STRICT MODE] "

  /** Where `error_get_last()` places the strict-mode `trigger_error` call:
      the handler's own source file (this constant stands for the path PHP
      reports for it) at line 299. */
  const HANDLER_FILE: string := "PhpErrorHandler.php"
  const STRICT_TRIGGER_LINE: int := 299

  /** The error that strict mode raises in place of any error it sees: an
      `E_USER_ERROR` carrying the formatted original. It is fatal once the
      script is shutting down and never before. */
  function StrictEscalation(code: int, message: string, file: string, line: int): (e: ErrorRecord)
    ensures KindOf(e.code) == E_USER_ERROR
    ensures IsFatalError(e.code, true) && !IsFatalError(e.code, false)
    ensures e.message == STRICT_MODE_PREFIX + FormatErrorString(code, message, file, line)
    ensures e.file == HANDLER_FILE && e.line == STRICT_TRIGGER_LINE
  {
    ErrorRecord(CodeOf(E_USER_ERROR), STRICT_MODE_PREFIX + FormatErrorString(code, message, file, line),
                HANDLER_FILE, STRICT_TRIGGER_LINE)
  }

  /** The exception the fatal callback receives for an error. */
  function FatalException(code: int, message: string, file: string, line: int): ErrorException {
    PhpFatalErrorException(FormatErrorString(code, message, file, line), code)
  }

  /** The text staged before the fatal callback runs: what the unrecoverable
      callback echoes and returns, or the default message when there is
      none. */
  function PlaceholderText(unrecoverable: Option<UnrecoverableErrorCallback>): string {
    match unrecoverable
    case None => DEFAULT_UNRECOVERABLE_ERROR_MESSAGE
    case Some(callback) =>
      match callback()
      case Returned(echoed, value) => echoed + ToPhpString(value)
      case Aborted(echoed, _) => echoed
  }

  predicate UnrecoverableAborts(unrecoverable: Option<UnrecoverableErrorCallback>) {
    unrecoverable.Some? && unrecoverable.value().Aborted?
  }

  /** The net effect of the fatal-error path on the output stack. Debug:
      earlier output is flushed and the fatal callback writes after it.
      Otherwise: the top scope is dropped and a placeholder scope is staged
      by running the unrecoverable callback, which may itself end the
      script; the fatal callback then runs over the placeholder. */
  function FatalResponse(debug: bool, unrecoverable: Option<UnrecoverableErrorCallback>,
                         fatal: Option<ErrorCallback>, o: Output, exception: ErrorException): (Output, FatalOutcome)
  {
    if !debug && UnrecoverableAborts(unrecoverable) then
      (Push(EndClean(o), Scope(unrecoverable.value().echoed, false)), Interrupted(unrecoverable.value().lastError))
    else
      var staged := if debug then EndFlush(o) else Push(EndClean(o), Scope(PlaceholderText(unrecoverable), false));
      match fatal
      case None => (staged, Completed)
      case Some(callback) => FatalCallbackResponse(!debug, callback, staged, exception)
  }

  /** What the fatal callback leaves on the stack `o` it runs over. When
      staging, it runs in a scope of its own whose transform drops its text;
      only if it returns are that scope and the placeholder below removed
      and its echoed text and result written in their place. Without
      staging it writes straight into `o`. */
  function FatalCallbackResponse(staging: bool, callback: ErrorCallback, o: Output,
                                 exception: ErrorException): (Output, FatalOutcome)
  {
    match callback(exception)
    case Returned(echoed, value) =>
      (Write(if staging then EndClean(o) else o, echoed + ToPhpString(value)), Completed)
    case Aborted(echoed, lastError) =>
      (if staging then Push(o, Scope(echoed, true)) else Write(o, echoed), Interrupted(lastError))
  }

  /** Stages the placeholder: opens a scope and echoes into it what the
      unrecoverable callback echoes and returns, or the default message.
      If the callback ends the script, the scope holds what it echoed. */
  method StageUnrecoverableMessage(o: Output, unrecoverable: Option<UnrecoverableErrorCallback>)
    returns (staged: Output, interrupted: Option<ErrorRecord>)
    ensures UnrecoverableAborts(unrecoverable) ==>
              staged == Push(o, Scope(unrecoverable.value().echoed, false))
              && interrupted == Some(unrecoverable.value().lastError)
    ensures !UnrecoverableAborts(unrecoverable) ==>
              staged == Push(o, Scope(PlaceholderText(unrecoverable), false)) && interrupted == None
  {
    staged := Start(o, false);
    if unrecoverable.Some? {
      var reaction := unrecoverable.value();
      WriteOnStarted(o, false, reaction.echoed);
      staged := Write(staged, reaction.echoed);
      if reaction.Aborted? {
        return staged, Some(reaction.lastError);
      }
      WriteOnPushed(o, Scope(reaction.echoed, false), ToPhpString(reaction.value));
      staged := Write(staged, ToPhpString(reaction.value));
    } else {
      WriteOnStarted(o, false, DEFAULT_UNRECOVERABLE_ERROR_MESSAGE);
      staged := Write(staged, DEFAULT_UNRECOVERABLE_ERROR_MESSAGE);
    }
    interrupted := None;
  }

  /** Runs the fatal callback over `o` with the formatted error, capturing
      its output in a discarding scope when staging. */
  method RunFatalCallback(staging: bool, callback: ErrorCallback, o: Output,
                          code: int, message: string, file: string, line: int)
    returns (r: Output, outcome: FatalOutcome)
    ensures (r, outcome) == FatalCallbackResponse(staging, callback, o, FatalException(code, message, file, line))
  {
    r := o;
    if staging {
      r := Start(r, true);
    }
    var errorString := FormatErrorString(code, message, file, line);
    var reaction := callback(PhpFatalErrorException(errorString, code));
    if staging {
      WriteOnStarted(o, true, reaction.echoed);
    }
    r := Write(r, reaction.echoed);
    if reaction.Aborted? {
      return r, Interrupted(reaction.lastError);
    }
    var response := ToPhpString(reaction.value);
    if staging {
      response := Contents(r) + response;
      EndCleanPush(o, Scope(reaction.echoed, true));
      r := EndClean(r);
      r := EndClean(r);
    } else {
      WriteTwice(o, reaction.echoed, response);
    }
    r := Write(r, response);
    outcome := Completed;
  }

  /** Nested failures are absorbed: outside debug mode, when the fatal
      callback is missing or itself ends the script, what the client gets
      after the earlier output is exactly the staged placeholder; the
      callback's own echoed text never reaches it. */
  lemma PlaceholderSurvives(unrecoverable: Option<UnrecoverableErrorCallback>, fatal: Option<ErrorCallback>,
                            o: Output, exception: ErrorException)
    requires !UnrecoverableAborts(unrecoverable)
    requires fatal.None? || fatal.value(exception).Aborted?
    requires Passes(EndClean(o).scopes)
    ensures FatalResponse(false, unrecoverable, fatal, o, exception).1
            == (if fatal.None? then Completed else Interrupted(fatal.value(exception).lastError))
    ensures Final(FatalResponse(false, unrecoverable, fatal, o, exception).0)
            == Final(EndClean(o)) + PlaceholderText(unrecoverable)
  {
    var placeholder := Scope(PlaceholderText(unrecoverable), false);
    var staged := Push(EndClean(o), placeholder);
    PushFinal(EndClean(o), placeholder);
    if fatal.Some? {
      PassesSnoc(EndClean(o).scopes, placeholder);
      PushFinal(staged, Scope(fatal.value(exception).echoed, true));
    }
  }

  /** When the unrecoverable callback itself ends the script, only what it
      echoed follows the earlier output, and the fatal callback never
      runs. */
  lemma UnrecoverableAbortPreemptsFatal(unrecoverable: Option<UnrecoverableErrorCallback>, fatal: Option<ErrorCallback>,
                                        o: Output, exception: ErrorException)
    requires UnrecoverableAborts(unrecoverable)
    requires Passes(EndClean(o).scopes)
    ensures FatalResponse(false, unrecoverable, fatal, o, exception) == FatalResponse(false, unrecoverable, None, o, exception)
    ensures FatalResponse(false, unrecoverable, fatal, o, exception).1 == Interrupted(unrecoverable.value().lastError)
    ensures Final(FatalResponse(false, unrecoverable, fatal, o, exception).0)
            == Final(EndClean(o)) + unrecoverable.value().echoed
  {
    PushFinal(EndClean(o), Scope(unrecoverable.value().echoed, false));
  }

  /** Outside debug mode, a fatal callback that returns replaces both the
      earlier output and the placeholder: the stack is back to its depth
      below the handler's scope, and the client gets the callback's echoed
      text followed by its result. */
  lemma ReturningFatalCallbackReplacesOutput(unrecoverable: Option<UnrecoverableErrorCallback>, callback: ErrorCallback,
                                             o: Output, exception: ErrorException)
    requires !UnrecoverableAborts(unrecoverable)
    requires callback(exception).Returned?
    requires Passes(EndClean(o).scopes)
    ensures FatalResponse(false, unrecoverable, Some(callback), o, exception).1 == Completed
    ensures |FatalResponse(false, unrecoverable, Some(callback), o, exception).0.scopes| == |EndClean(o).scopes|
    ensures Final(FatalResponse(false, unrecoverable, Some(callback), o, exception).0)
            == Final(EndClean(o)) + callback(exception).echoed + ToPhpString(callback(exception).value)
  {
    var reaction := callback(exception);
    var staged := Push(EndClean(o), Scope(PlaceholderText(unrecoverable), false));
    EndCleanPush(EndClean(o), Scope(PlaceholderText(unrecoverable), false));
    WriteShape(EndClean(staged), reaction.echoed + ToPhpString(reaction.value));
    WriteFinal(EndClean(staged), reaction.echoed + ToPhpString(reaction.value));
  }

  /** In debug mode nothing is dropped: the earlier output is kept, no
      placeholder is staged (so the unrecoverable callback plays no part),
      and the fatal callback's text follows the earlier output. */
  lemma DebugKeepsEarlierOutput(unrecoverable: Option<UnrecoverableErrorCallback>, fatal: Option<ErrorCallback>,
                                o: Output, exception: ErrorException)
    requires Passes(o.scopes)
    ensures FatalResponse(true, unrecoverable, fatal, o, exception) == FatalResponse(true, None, fatal, o, exception)
    ensures Final(FatalResponse(true, unrecoverable, fatal, o, exception).0)
            == Final(o) + match fatal
                          case None => ""
                          case Some(callback) =>
                            match callback(exception)
                            case Returned(echoed, value) => echoed + ToPhpString(value)
                            case Aborted(echoed, _) => echoed
  {
    EndFlushKeepsFinal(o);
    EndPasses(o);
    if fatal.Some? {
      var reaction := fatal.value(exception);
      if reaction.Returned? {
        WriteFinal(EndFlush(o), reaction.echoed + ToPhpString(reaction.value));
      } else {
        WriteFinal(EndFlush(o), reaction.echoed);
      }
    } else {
      assert Final(o) + "" == Final(o);
    }
  }

  class PhpErrorHandler {
    var errorCallback: Option<ErrorCallback>
    var fatalErrorCallback: Option<ErrorCallback>
    var unrecoverableErrorCallback: Option<UnrecoverableErrorCallback>
    var debug: bool
    /** None while the property has never been assigned (PHP null). */
    var strict: Option<bool>
    var errorLogger: Option<Logger>
    var isShuttingDown: bool
    /** PHP's output layer, which the handler drives. */
    var output: Output
    /** Every call made to the logger, in order. */
    var logged: seq<LogEntry>

    /** Opens the handler's outer scope and stores the configuration,
        `strict` included. */
    constructor (debug: bool, strict: bool, errorCallback: Option<ErrorCallback>,
                 fatalErrorCallback: Option<ErrorCallback>,
                 unrecoverableErrorCallback: Option<UnrecoverableErrorCallback>,
                 errorLogger: Option<Logger>, output: Output)
      ensures this.output == Start(output, false)
      ensures this.debug == debug && this.strict == Some(strict)
      ensures this.errorCallback == errorCallback && this.fatalErrorCallback == fatalErrorCallback
      ensures this.unrecoverableErrorCallback == unrecoverableErrorCallback && this.errorLogger == errorLogger
      ensures !isShuttingDown && logged == []
    {
      this.output := Start(output, false);
      this.debug := debug;
      this.strict := Some(strict);
      this.errorCallback := errorCallback;
      this.fatalErrorCallback := fatalErrorCallback;
      this.unrecoverableErrorCallback := unrecoverableErrorCallback;
      this.errorLogger := errorLogger;
      this.isShuttingDown := false;
      this.logged := [];
    }

    /** The constructor as the source has it: the `strict` argument is
        accepted but never stored, so the property stays null. */
    constructor AsWritten(debug: bool, strict: bool, errorCallback: Option<ErrorCallback>,
                          fatalErrorCallback: Option<ErrorCallback>,
                          unrecoverableErrorCallback: Option<UnrecoverableErrorCallback>,
                          errorLogger: Option<Logger>, output: Output)
      ensures this.output == Start(output, false)
      ensures this.debug == debug && this.strict == None
      ensures this.errorCallback == errorCallback && this.fatalErrorCallback == fatalErrorCallback
      ensures this.unrecoverableErrorCallback == unrecoverableErrorCallback && this.errorLogger == errorLogger
      ensures !isShuttingDown && logged == []
    {
      this.output := Start(output, false);
      this.debug := debug;
      this.strict := None;
      this.errorCallback := errorCallback;
      this.fatalErrorCallback := fatalErrorCallback;
      this.unrecoverableErrorCallback := unrecoverableErrorCallback;
      this.errorLogger := errorLogger;
      this.isShuttingDown := false;
      this.logged := [];
    }

    method SetDebug(debug: bool)
      modifies this`debug
      ensures this.debug == debug
    {
      this.debug := debug;
    }

    method SetStrict(strict: bool)
      modifies this`strict
      ensures this.strict == Some(strict)
    {
      this.strict := Some(strict);
    }

    method SetErrorCallback(errorCallback: Option<ErrorCallback>)
      modifies this`errorCallback
      ensures this.errorCallback == errorCallback
    {
      this.errorCallback := errorCallback;
    }

    method SetFatalErrorCallback(fatalErrorCallback: Option<ErrorCallback>)
      modifies this`fatalErrorCallback
      ensures this.fatalErrorCallback == fatalErrorCallback
    {
      this.fatalErrorCallback := fatalErrorCallback;
    }

    method SetUnrecoverableErrorCallback(unrecoverableErrorCallback: Option<UnrecoverableErrorCallback>)
      modifies this`unrecoverableErrorCallback
      ensures this.unrecoverableErrorCallback == unrecoverableErrorCallback
    {
      this.unrecoverableErrorCallback := unrecoverableErrorCallback;
    }

    method SetErrorLogger(errorLogger: Option<Logger>)
      modifies this`errorLogger
      ensures this.errorLogger == errorLogger
    {
      this.errorLogger := errorLogger;
    }

    /** The log call `logError` makes for an error, at the level the
        current shutting-down state gives it. */
    function LogEntryFor(code: int, message: string, file: string, line: int): LogEntry
      reads this
    {
      LogEntry(ErrorLevel(code, isShuttingDown), FormatErrorString(code, message, file, line))
    }

    /** The log calls made for `entry`: one if a logger is set, none otherwise. */
    function LogCalls(entry: LogEntry): seq<LogEntry>
      reads this
    {
      if errorLogger.Some? then [entry] else []
    }

    /** Logging `entry` throws out of the handler: the logger fails and the
        failure is not swallowed because the script is not shutting down. */
    predicate LogThrows(entry: LogEntry)
      reads this
    {
      errorLogger.Some? && !errorLogger.value.succeeds(entry) && !isShuttingDown
    }

    /** `logError`: one log call, and the logger's failure is rethrown unless
        the script is shutting down. */
    method LogError(code: int, message: string, file: string, line: int) returns (thrown: bool)
      requires errorLogger.Some?
      modifies this`logged
      ensures logged == old(logged) + [LogEntryFor(code, message, file, line)]
      ensures thrown <==> LogThrows(LogEntryFor(code, message, file, line))
    {
      var entry := LogEntry(ErrorLevel(code, isShuttingDown), FormatErrorString(code, message, file, line));
      logged := logged + [entry];
      var ok := errorLogger.value.succeeds(entry);
      thrown := !ok && !isShuttingDown;
    }

    /** `handleError`. Strict mode escalates first, before any logging or
        callback; otherwise the error is logged, dropped while shutting
        down, and offered to the error callback, whose `true` marks it
        handled and whose string is echoed. */
    method HandleError(code: int, message: string, file: string, line: int) returns (outcome: ErrorOutcome)
      modifies this`output, this`logged
      ensures strict == None ==> outcome == Threw && output == old(output) && logged == old(logged)
      ensures strict == Some(true) ==>
                outcome == Terminated(StrictEscalation(code, message, file, line))
                && output == old(output) && logged == old(logged)
      ensures strict == Some(false) ==> logged == old(logged) + LogCalls(LogEntryFor(code, message, file, line))
      ensures strict == Some(false) && LogThrows(LogEntryFor(code, message, file, line)) ==>
                outcome == Threw && output == old(output)
      ensures strict == Some(false) && !LogThrows(LogEntryFor(code, message, file, line))
              && (isShuttingDown || errorCallback == None) ==>
                outcome == Result(false) && output == old(output)
      ensures strict == Some(false) && !LogThrows(LogEntryFor(code, message, file, line))
              && !isShuttingDown && errorCallback.Some? ==>
                match errorCallback.value(PhpErrorException(FormatErrorString(code, message, file, line), code))
                case Aborted(echoed, lastError) =>
                  outcome == Terminated(lastError) && output == Write(old(output), echoed)
                case Returned(echoed, value) =>
                  outcome == Result(value == Bool(true))
                  && output == Write(old(output), echoed + (if value.Str? then value.s else ""))
    {
      if strict.None? {
        // isStrict() is declared to return bool; a null property makes it throw.
        return Threw;
      }
      if strict.value {
        return Terminated(StrictEscalation(code, message, file, line));
      }
      if errorLogger.Some? {
        var thrown := LogError(code, message, file, line);
        if thrown {
          return Threw;
        }
      }
      if isShuttingDown {
        return Result(false);
      }
      if errorCallback.Some? {
        var errorString := FormatErrorString(code, message, file, line);
        var reaction := errorCallback.value(PhpErrorException(errorString, code));
        output := Write(output, reaction.echoed);
        match reaction {
          case Aborted(_, lastError) =>
            return Terminated(lastError);
          case Returned(echoed, value) =>
            if value == Bool(true) {
              assert echoed + "" == echoed;
              return Result(true);
            }
            if value.Str? {
              WriteTwice(old(output), echoed, value.s);
              output := Write(output, value.s);
            } else {
              assert echoed + "" == echoed;
            }
        }
      }
      return Result(false);
    }

    /** `handleFatalError`, reached only from `onExecutionEnd` once the
        shutting-down flag is set: one log call, and the output stack
        changed as FatalResponse describes. */
    method HandleFatalError(code: int, message: string, file: string, line: int) returns (outcome: FatalOutcome)
      requires isShuttingDown
      modifies this`output, this`logged
      ensures logged == old(logged) + LogCalls(LogEntryFor(code, message, file, line))
      ensures (output, outcome) == FatalResponse(debug, unrecoverableErrorCallback, fatalErrorCallback, old(output),
                                                 FatalException(code, message, file, line))
    {
      var o := output;
      if debug {
        o := EndFlush(o);
      } else {
        o := EndClean(o);
      }
      if errorLogger.Some? {
        var _ := LogError(code, message, file, line);
      }
      if !debug {
        var interrupted;
        o, interrupted := StageUnrecoverableMessage(o, unrecoverableErrorCallback);
        if interrupted.Some? {
          output := o;
          return Interrupted(interrupted.value);
        }
      }
      outcome := Completed;
      if fatalErrorCallback.Some? {
        o, outcome := RunFatalCallback(!debug, fatalErrorCallback.value, o, code, message, file, line);
      }
      output := o;
    }

    /** `onExecutionEnd`: runs once. It sets the shutting-down flag before
        looking at the last error, and takes the fatal path only when that
        error is fatal at shutdown; otherwise nothing else changes. */
    method OnExecutionEnd(lastError: Option<ErrorRecord>) returns (outcome: FatalOutcome)
      modifies this`isShuttingDown, this`output, this`logged
      ensures isShuttingDown
      ensures old(isShuttingDown) || lastError == None || !IsFatalError(lastError.value.code, true) ==>
                outcome == Completed && output == old(output) && logged == old(logged)
      ensures !old(isShuttingDown) && lastError.Some? && IsFatalError(lastError.value.code, true) ==>
                var e := lastError.value;
                && logged == old(logged) + LogCalls(LogEntry(ErrorLevel(e.code, true), FormatErrorString(e.code, e.message, e.file, e.line)))
                && (output, outcome) == FatalResponse(debug, unrecoverableErrorCallback, fatalErrorCallback, old(output),
                                                      FatalException(e.code, e.message, e.file, e.line))
    {
      if isShuttingDown {
        return Completed;
      }
      isShuttingDown := true;
      if lastError.None? {
        return Completed;
      }
      var e := lastError.value;
      if IsFatalError(e.code, isShuttingDown) {
        outcome := HandleFatalError(e.code, e.message, e.file, e.line);
      } else {
        outcome := Completed;
      }
    }
  }
}
