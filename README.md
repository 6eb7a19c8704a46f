# PhpErrorHandler, modelled in Dafny

`PhpErrorHandler` installs itself as PHP's error handler and shutdown
function. It does four things:
- It classifies every error by its `E_*` type and a PSR-3 log level.
- It logs the error and hands it to user callbacks.
- In strict mode, it turns any error into a fatal `E_USER_ERROR`.
- When the script ends on a fatal error, it drives PHP's output-buffer stack
  so that nested failures are absorbed. Outside debug mode, `ob_end_clean`
  drops the top scope, normally the handler's own. Text sent before the
  handler opened its scope, and text held in scopes below the top, survives.
  A placeholder is then staged, either the unrecoverable callback's text
  or a default message. The fatal callback then runs in a scope whose text is
  discarded if the script dies. Only when that callback returns are the
  placeholder and the scope replaced by the callback's own output.

The model has seven modules:

- **Wrappers**: the `Option` type used for settings that may be absent.
- **PhpValues**: the values a callback can return, and PHP's conversion of
  integers and values to text when they are echoed or concatenated.
- **ErrorClassification**: `getErrorType`, `getErrorLevel` and
  `isFatalError`, over the fifteen named error kinds plus any other code.
- **ErrorFormatting**: `formatErrorString`, including PHP's `empty()` test on
  the file name.
- **OutputBuffering**: PHP's output layer as a value. It is a stack of scopes
  over the text already sent. It supports `ob_start`, `ob_end_clean`,
  `ob_end_flush`, `ob_get_contents` and `echo`. It also defines what the
  client finally receives once the process ends and every open scope is
  flushed, with a scope whose transform yields nothing contributing nothing.
- **ErrorHandler**: the class `PhpErrorHandler`, with the source's fields,
  its constructor and setters, `logError`, `handleError`, `handleFatalError`
  and `onExecutionEnd` as methods. The output stack and a journal of logger
  calls are explicit fields. `FatalResponse` is the specification of the
  fatal path, and lemmas state what the client receives on each branch of it.
- **Scenarios**: pages served under the handler, as the web-server tests
  drive them. Each states the response those tests expect.

User callbacks are functions returning a `Reaction`. A callback either
returns a value after echoing some text, or it ends the script with a
further fatal error after echoing some text; that error becomes the last
error PHP reports. An exception a callback throws is not a separate
reaction: for the fatal and unrecoverable callbacks it is an `Aborted`
reaction, and for the error callback it is left out (see "## Left out").
The logger is a function telling which log calls succeed.
`error_get_last()` is the argument of `OnExecutionEnd`.

## Model

| member | source | states |
|---|---|---|
| PhpValues.NatToString | src/PhpErrorHandler/PhpErrorHandler.php:530 | the decimal text of a line number is non-empty, all digits, with no leading zero |
| PhpValues.NatToStringRoundTrip | src/PhpErrorHandler/PhpErrorHandler.php:530 | reading the decimal digits back gives the number that was written |
| PhpValues.IntToString | src/PhpErrorHandler/PhpErrorHandler.php:530 | an integer's text starts with '-' exactly when it is negative, and digits follow |
| PhpValues.IntToStringInjective | src/PhpErrorHandler/PhpErrorHandler.php:530 | distinct integers are written as distinct texts |
| PhpValues.ToPhpString | src/PhpErrorHandler/PhpErrorHandler.php:338-428 | a value echoed or concatenated gives the empty text exactly for null, false and the empty string; an integer's text starts with '-' exactly when it is negative |
| ErrorClassification.KindOf | src/PhpErrorHandler/PhpErrorHandler.php:544-598 | every integer code is classified, and the kind carries exactly that code |
| ErrorClassification.KindOfCodeOf | src/PhpErrorHandler/PhpErrorHandler.php:544-598 | each of the fifteen named kinds is recovered from its own code |
| ErrorClassification.ErrorType | src/PhpErrorHandler/PhpErrorHandler.php:544-598 | total; "unknown" exactly for codes outside the table, and an `E_` name for every named kind |
| ErrorClassification.ErrorTypeIdentifiesCode | src/PhpErrorHandler/PhpErrorHandler.php:544-598 | two codes from the table that are given the same name are the same code, so the logged type identifies the error |
| ErrorClassification.ErrorLevel | src/PhpErrorHandler/PhpErrorHandler.php:611-667 | never ALERT, EMERGENCY or DEBUG. CRITICAL exactly for parse/core/compile errors, and for runtime/recoverable/user errors while shutting down. ERROR exactly for those three when not shutting down. Unknown codes are INFO |
| ErrorClassification.ErrorLevelDependsOnFlagOnlyForErrors | src/PhpErrorHandler/PhpErrorHandler.php:611-667 | the shutting-down flag changes the level exactly for E_ERROR, E_RECOVERABLE_ERROR and E_USER_ERROR: CRITICAL with it, ERROR without |
| ErrorClassification.IsFatalError | src/PhpErrorHandler/PhpErrorHandler.php:676-687 | fatal exactly when the error is logged at CRITICAL, and only codes from the table are ever fatal |
| ErrorClassification.FatalErrorKinds | src/PhpErrorHandler/PhpErrorHandler.php:676-687 | fatal iff parse/core/compile error, or runtime/recoverable/user error while shutting down |
| ErrorClassification.FatalWhileRunningIsFatalAtShutdown | src/PhpErrorHandler/PhpErrorHandler.php:676-687 | setting the shutting-down flag never makes a fatal code non-fatal |
| ErrorFormatting.FormatErrorString | src/PhpErrorHandler/PhpErrorHandler.php:516-535 | the string starts with "PHP TYPE: message"; it is only that when the file is empty in PHP's sense ("" or "0"), and otherwise " in file" follows |
| ErrorFormatting.AppendLocationPrefix | src/PhpErrorHandler/PhpErrorHandler.php:524-532 | the text before the location is kept; " in file" follows exactly when the file is not empty in PHP's sense |
| ErrorFormatting.AppendLocationLine | src/PhpErrorHandler/PhpErrorHandler.php:524-532 | " on line n" follows the file exactly when the file is not empty and the line is not 0, and nothing else follows |
| ErrorFormatting.FormatErrorStringShape | src/PhpErrorHandler/PhpErrorHandler.php:516-535 | the string starts with "PHP TYPE: message", then the file only when given, then the line only when the file is given and the line is not 0 |
| ErrorFormatting.FormatDistinguishesLines | src/PhpErrorHandler/PhpErrorHandler.php:516-535 | with a file, the formatted strings for two non-zero lines are equal only if the lines are |
| OutputBuffering.PendingSnoc | src/PhpErrorHandler/PhpErrorHandler.php:395-397 | a scope opened on top adds its flushed text to the final output unless a scope below discards |
| OutputBuffering.PassesSnoc | src/PhpErrorHandler/PhpErrorHandler.php:395-397 | a stack with a scope on top discards nothing iff neither the stack below nor that scope discards |
| OutputBuffering.StartKeepsFinal | src/PhpErrorHandler/PhpErrorHandler.php:378 | `ob_start` leaves the final output unchanged, starts empty, and is undone by `ob_end_clean` |
| OutputBuffering.PushFinal | src/PhpErrorHandler/PhpErrorHandler.php:377-388 | a staged scope's text is added to the final output unless a scope below discards it |
| OutputBuffering.EndCleanPush | src/PhpErrorHandler/PhpErrorHandler.php:419-425 | `ob_end_clean` right after opening a scope restores the stack |
| OutputBuffering.WriteOnPushed | src/PhpErrorHandler/PhpErrorHandler.php:384 | echoing into a scope just opened is opening it with that text appended |
| OutputBuffering.WriteOnStarted | src/PhpErrorHandler/PhpErrorHandler.php:378-386 | echoing into the scope `ob_start` just opened leaves a scope holding exactly that text |
| OutputBuffering.WriteShape | src/PhpErrorHandler/PhpErrorHandler.php:428 | `echo` keeps the depth, every scope below the top and each scope's discard flag; the top scope gains exactly the text, and with no scope open the text is sent |
| OutputBuffering.WriteFinal | src/PhpErrorHandler/PhpErrorHandler.php:428 | `echo` adds exactly its text to the final output, unless an open scope discards it |
| OutputBuffering.WriteTwice | src/PhpErrorHandler/PhpErrorHandler.php:336-339 | two echoes in a row are one echo of the concatenation |
| OutputBuffering.EndCleanFinal | src/PhpErrorHandler/PhpErrorHandler.php:368 | `ob_end_clean` removes exactly the top scope's flushed text from the final output |
| OutputBuffering.EndPasses | src/PhpErrorHandler/PhpErrorHandler.php:366-368 | closing a scope either way keeps a stack in which nothing discards |
| OutputBuffering.EndFlushKeepsFinal | src/PhpErrorHandler/PhpErrorHandler.php:366 | `ob_end_flush` removes one scope and leaves the final output unchanged |
| OutputBuffering.ShutdownFlushesEveryScope | src/PhpErrorHandler/PhpErrorHandler.php:395-397 | the end-of-process flush is the same as closing every scope with `ob_end_flush`, top first |
| ErrorHandler.StrictEscalation | src/PhpErrorHandler/PhpErrorHandler.php:290-300 | the strict-mode error is an E_USER_ERROR whose message is exactly "[STRICT MODE] " followed by the formatted error, raised from the handler's file at line 299; it is fatal at shutdown and not before |
| ErrorHandler.StageUnrecoverableMessage | src/PhpErrorHandler/PhpErrorHandler.php:377-388 | opens a scope holding the unrecoverable callback's echo and result, or the default message; if that callback ends the script, the scope holds its echo and the error is reported |
| ErrorHandler.RunFatalCallback | src/PhpErrorHandler/PhpErrorHandler.php:392-429 | the stack and outcome after the fatal callback are those FatalCallbackResponse specifies for the formatted exception |
| ErrorHandler.PlaceholderSurvives | src/PhpErrorHandler/PhpErrorHandler.php:377-428 | outside debug mode, when the fatal callback is missing or ends the script, the client gets the earlier kept output followed by exactly the placeholder |
| ErrorHandler.UnrecoverableAbortPreemptsFatal | src/PhpErrorHandler/PhpErrorHandler.php:377-388 | when the unrecoverable callback ends the script, only its echo follows, the fatal callback plays no part, and its error is reported |
| ErrorHandler.ReturningFatalCallbackReplacesOutput | src/PhpErrorHandler/PhpErrorHandler.php:363-428 | outside debug mode, a returning fatal callback replaces the top scope and the placeholder: the stack is back below the handler's scope and the client gets the callback's echo and result |
| ErrorHandler.DebugKeepsEarlierOutput | src/PhpErrorHandler/PhpErrorHandler.php:363-428 | in debug mode earlier output is kept, no placeholder is staged (the unrecoverable callback plays no part), and the fatal callback's echo and result follow |
| ErrorHandler.PhpErrorHandler.constructor | src/PhpErrorHandler/PhpErrorHandler.php:97-113 | opens the handler's scope and stores every setting, `strict` included; not shutting down, nothing logged |
| ErrorHandler.PhpErrorHandler.AsWritten | src/PhpErrorHandler/PhpErrorHandler.php:97-113 | the constructor as written: the same, except that `strict` stays unset |
| ErrorHandler.PhpErrorHandler.SetDebug | src/PhpErrorHandler/PhpErrorHandler.php:154-159 | stores the debug flag |
| ErrorHandler.PhpErrorHandler.SetStrict | src/PhpErrorHandler/PhpErrorHandler.php:174-179 | stores the strict flag |
| ErrorHandler.PhpErrorHandler.SetErrorCallback | src/PhpErrorHandler/PhpErrorHandler.php:194-199 | stores the error callback |
| ErrorHandler.PhpErrorHandler.SetFatalErrorCallback | src/PhpErrorHandler/PhpErrorHandler.php:214-219 | stores the fatal-error callback |
| ErrorHandler.PhpErrorHandler.SetUnrecoverableErrorCallback | src/PhpErrorHandler/PhpErrorHandler.php:234-239 | stores the unrecoverable-error callback |
| ErrorHandler.PhpErrorHandler.SetErrorLogger | src/PhpErrorHandler/PhpErrorHandler.php:254-259 | stores the logger |
| ErrorHandler.PhpErrorHandler.LogError | src/PhpErrorHandler/PhpErrorHandler.php:479-506 | one log call with the current level and the formatted string; a failure escapes exactly when not shutting down |
| ErrorHandler.PhpErrorHandler.HandleError | src/PhpErrorHandler/PhpErrorHandler.php:280-343 | strict mode ends the script with the escalation before any logging or callback. Otherwise: one log call; a logger failure escapes; while shutting down or without a callback it returns false with the output unchanged; true exactly when the callback returned true; a string result is echoed |
| ErrorHandler.PhpErrorHandler.HandleFatalError | src/PhpErrorHandler/PhpErrorHandler.php:356-430 | one log call, and the output stack and outcome are what FatalResponse specifies |
| ErrorHandler.PhpErrorHandler.OnExecutionEnd | src/PhpErrorHandler/PhpErrorHandler.php:436-467 | sets the shutting-down flag; a second call, no last error, or a non-fatal one changes nothing else; a fatal last error takes the fatal path |
| Scenarios.StartPage | tests/PhpErrorHandler/Scenario/TestScenario.php:37-72 | the handler is built with the constructor as written and configured through its setters, so `strict` is set; the page's first output sits in the handler's scope |
| Scenarios.ServeWithoutError | tests/PhpErrorHandler/WebserverTest.php:13-27 | a page without an error is served as written, whatever the configuration |
| Scenarios.ServeNonStrict | tests/PhpErrorHandler/WebserverTest.php:38-67 | a non-strict page runs to its end: the error is invisible without a callback, and a returning callback's echo and string appear where the error happened |
| Scenarios.ServeStrict | tests/PhpErrorHandler/WebserverTest.php:72-173 | a strict page ends at its error. Outside debug mode the response is the fatal callback's output, the unrecoverable callback's echo if it died, or the placeholder. In debug mode it is the output so far followed by the fatal callback's text |
| Scenarios.StagedPageResponse | tests/PhpErrorHandler/WebserverTest.php:83-173 | with nothing sent before the handler's scope, the response outside debug mode is exactly the fatal callback's output, the unrecoverable callback's echo, or the placeholder |
| Scenarios.DefaultHandlerAsWritten | src/PhpErrorHandler/PhpErrorHandler.php:97-113 | with the constructor as written, the first notice throws out of the error handler |
| Scenarios.DefaultHandler | src/PhpErrorHandler/PhpErrorHandler.php:97-113 | with the corrected constructor, the same notice is left to PHP (false) |

## Left out

- Registration with the PHP runtime is left out: `ini_set`, `error_reporting`, `set_error_handler` and `register_shutdown_function`. The handlers are methods called directly, and `error_get_last()` is the argument of `OnExecutionEnd`.
- PHP prints errors and sets the HTTP status; both are left out. When `$setDisplayError` is true, the constructor switches `display_errors` on when its `$debug` argument is true and off otherwise (src/PhpErrorHandler/PhpErrorHandler.php:115-121). It reads the argument, not the `debug` field, so a handler built with `$debug` false and then given `setDebug(true)` keeps display off. That switch is left out with the other `ini_set` calls. The model assumes display is off outside debug mode. In debug mode it omits the messages PHP prints. With display on, PHP's message for a fatal error raised inside the unrecoverable callback would land in the placeholder scope.
- The PSR-3 logger implementation and the exception classes are left out. Only the level and message of each log call are kept, together with whether that call fails.
- Process termination is left out. A callback that dies is a `Reaction` that ends the handler's work with the new last error, and a strict-mode `trigger_error` is an outcome carrying that error. What PHP does on a fatal raised inside a running shutdown function is not modelled; the model stops there, and the remaining scopes are flushed.
- Floats, arrays and objects as callback results are left out; the model covers null, booleans, integers and strings.
- ErrorHandler.PhpErrorHandler.HandleError: PHP does not call the handler again for an error raised while `handleError` runs. That includes the error callback and the strict-mode `trigger_error` at :299, which go straight to PHP.
- ErrorHandler.PhpErrorHandler.HandleError: an exception thrown by the error callback is not modelled. The callback runs without a try block (:325-331, `@throws Throwable` at :278), so such an exception escapes `handleError` after whatever the callback echoed, and the code that raised the error may catch it. `Reaction` has no such case, so the model's only `Threw` from this branch comes from the logger.
- ErrorHandler.PhpErrorHandler.HandleFatalError, ErrorHandler.PhpErrorHandler.OnExecutionEnd: the unrecoverable callback (:384) and the fatal callback (:407) run from the shutdown function. Any error either of them raises, except E_ERROR, E_PARSE, E_CORE_* and E_COMPILE_*, therefore goes through `handleError`, E_USER_ERROR included. Under strict mode it is escalated again (:290-300). Otherwise it is logged at the shutting-down level (:304-306) and `handleError` returns false (:310-311). An E_USER_ERROR or E_RECOVERABLE_ERROR then still ends the script, which is the `Aborted` reaction. The model folds all of this into the callback's `Reaction`, so that extra log call does not appear in `logged`. "One log call" holds only for callbacks that raise no error `handleError` receives. An exception either callback throws is uncaught inside the shutdown function, so PHP reports it as a fatal E_ERROR; that is also an `Aborted` reaction.
- PHP emits a notice when `ob_end_clean` or `ob_end_flush` runs with no open scope. The model treats both as a no-op on an empty stack and does not model the notice.
- The file PHP reports for the strict-mode `trigger_error` is the handler's absolute path. It is the constant `HANDLER_FILE`.
- The getters are the fields themselves.
- The demo page and the tests' HTTP plumbing (web server, cURL, query strings) are left out. The tests serve only as the expected outcomes stated by `Scenarios`.

## Findings

| source | as written | input that shows it | evidently intended | confidence | as-written member | corrected member |
|---|---|---|---|---|---|---|
| src/PhpErrorHandler/PhpErrorHandler.php:97-113 | the constructor takes `$strict` but never calls `setStrict`, so `$this->strict` stays null and `isStrict(): bool` throws a TypeError at the first error handled | `new PhpErrorHandler()` (or `new PhpErrorHandler(false, true)`), then any E_NOTICE | the constructor calls `setStrict($strict)` like the other setters | high; not executed | Scenarios.DefaultHandlerAsWritten | Scenarios.DefaultHandler |
