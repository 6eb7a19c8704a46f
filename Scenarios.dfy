/** A page served under the handler, as the web-server tests drive it: the
    handler is created, the page echoes some text, raises at most one
    non-fatal error, echoes more text if the script goes on, and the
    shutdown hook runs with whatever PHP then reports as the last error.
    The response is everything the client receives once the remaining
    output scopes are flushed. */
module Scenarios {
  import opened Wrappers
  import opened PhpValues
  import opened ErrorClassification
  import opened ErrorFormatting
  import opened OutputBuffering
  import opened ErrorHandler

  /** The exception the fatal callback receives once strict mode has
      escalated `e`. */
  function EscalatedException(e: ErrorRecord): ErrorException {
    var escalated := StrictEscalation(e.code, e.message, e.file, e.line);
    FatalException(escalated.code, escalated.message, escalated.file, escalated.line)
  }

  /** The handler's scope holding `content`, with nothing sent yet. */
  function PageScope(content: string): Output {
    Output([Scope(content, false)], "")
  }

  /** Creates the handler as the test pages do, with the constructor as
      written and then each setting through its setter, and lets the page
      echo `before`. Because `SetStrict` runs, `strict` is no longer null
      here, which is why the pages never meet the constructor's missing
      assignment. */
  method StartPage(debug: bool, strict: bool, errorCallback: Option<ErrorCallback>,
                   fatalErrorCallback: Option<ErrorCallback>,
                   unrecoverableErrorCallback: Option<UnrecoverableErrorCallback>, before: string)
    returns (handler: PhpErrorHandler)
    ensures fresh(handler)
    ensures handler.debug == debug && handler.strict == Some(strict) && handler.errorLogger == None
    ensures handler.errorCallback == errorCallback && handler.fatalErrorCallback == fatalErrorCallback
    ensures handler.unrecoverableErrorCallback == unrecoverableErrorCallback && !handler.isShuttingDown
    ensures handler.output == PageScope(before)
  {
    handler := new PhpErrorHandler.AsWritten(false, false, None, None, None, None, Output([], ""));
    handler.SetDebug(debug);
    handler.SetStrict(strict);
    assert handler.output == Start(Output([], ""), false) && !handler.isShuttingDown && handler.errorLogger == None;
    handler.SetErrorCallback(errorCallback);
    handler.SetFatalErrorCallback(fatalErrorCallback);
    assert handler.output == Start(Output([], ""), false) && !handler.isShuttingDown && handler.errorLogger == None;
    assert handler.debug == debug && handler.strict == Some(strict);
    handler.SetUnrecoverableErrorCallback(unrecoverableErrorCallback);
    WriteOnStarted(Output([], ""), false, before);
    handler.output := Write(handler.output, before);
    assert [] + [Scope(before, false)] == [Scope(before, false)];
  }

  /** A page without an error is served as written, whatever the
      configuration. */
  method ServeWithoutError(debug: bool, strict: bool, errorCallback: Option<ErrorCallback>,
                           fatalErrorCallback: Option<ErrorCallback>,
                           unrecoverableErrorCallback: Option<UnrecoverableErrorCallback>,
                           before: string, after: string)
    returns (response: string)
    ensures response == before + after
  {
    var handler := StartPage(debug, strict, errorCallback, fatalErrorCallback, unrecoverableErrorCallback, before);
    handler.output := Write(handler.output, after);
    var _ := handler.OnExecutionEnd(None);
    response := Final(handler.output);
    SingleScope(before, after);
    SingleScope(before + after, "");
  }

  /** A page raising a non-fatal error without strict mode runs to its
      end. With no error callback the error does not show in the page;
      with one that returns, its echoed text and string result appear where
      the error happened. */
  method ServeNonStrict(debug: bool, errorCallback: Option<ErrorCallback>,
                        fatalErrorCallback: Option<ErrorCallback>,
                        unrecoverableErrorCallback: Option<UnrecoverableErrorCallback>,
                        before: string, error: ErrorRecord, after: string)
    returns (response: string)
    requires !IsFatalError(error.code, true)
    ensures errorCallback.None? ==> response == before + after
    ensures errorCallback.Some? ==>
              var reaction := errorCallback.value(PhpErrorException(
                                FormatErrorString(error.code, error.message, error.file, error.line), error.code));
              reaction.Returned? ==>
                response == before + (reaction.echoed + (if reaction.value.Str? then reaction.value.s else "")) + after
  {
    var handler := StartPage(debug, false, errorCallback, fatalErrorCallback, unrecoverableErrorCallback, before);
    var outcome := handler.HandleError(error.code, error.message, error.file, error.line);
    var lastError: Option<ErrorRecord>;
    match outcome {
      case Result(handled) =>
        // PHP records the error as the last one only when the handler
        // leaves it to PHP.
        lastError := if handled then None else Some(error);
        handler.output := Write(handler.output, after);
      case Terminated(e) =>
        lastError := Some(e);
      case Threw =>
        assert false;
    }
    var _ := handler.OnExecutionEnd(lastError);
    response := Final(handler.output);
    if outcome.Result? {
      var inserted := if errorCallback.None? then "" else
        var reaction := errorCallback.value(PhpErrorException(
                          FormatErrorString(error.code, error.message, error.file, error.line), error.code));
        reaction.echoed + (if reaction.value.Str? then reaction.value.s else "");
      SingleScope(before, inserted);
      SingleScope(before + inserted, after);
      SingleScope(before + inserted + after, "");
      assert before + "" == before;
    }
  }

  /** In strict mode the page's error ends the script where it happened.
      Outside debug mode the page's own output is gone and replaced by the
      fatal callback's text, the placeholder, or what the unrecoverable
      callback echoed before ending the script; in debug mode the output up
      to the error is kept and the fatal callback's text follows. */
  method ServeStrict(debug: bool, errorCallback: Option<ErrorCallback>,
                     fatalErrorCallback: Option<ErrorCallback>,
                     unrecoverableErrorCallback: Option<UnrecoverableErrorCallback>,
                     before: string, error: ErrorRecord, after: string)
    returns (response: string)
    ensures !debug ==>
              var exception := EscalatedException(error);
              if UnrecoverableAborts(unrecoverableErrorCallback) then
                response == unrecoverableErrorCallback.value().echoed
              else if fatalErrorCallback.Some? && fatalErrorCallback.value(exception).Returned? then
                response == fatalErrorCallback.value(exception).echoed + ToPhpString(fatalErrorCallback.value(exception).value)
              else
                response == PlaceholderText(unrecoverableErrorCallback)
    ensures debug ==>
              response == before + match fatalErrorCallback
                                   case None => ""
                                   case Some(callback) =>
                                     match callback(EscalatedException(error))
                                     case Returned(echoed, value) => echoed + ToPhpString(value)
                                     case Aborted(echoed, _) => echoed
  {
    var handler := StartPage(debug, true, errorCallback, fatalErrorCallback, unrecoverableErrorCallback, before);
    ghost var page := handler.output;
    var outcome := handler.HandleError(error.code, error.message, error.file, error.line);
    var lastError: Option<ErrorRecord> := None;
    match outcome {
      case Terminated(e) =>
        // The escalation ends the script: the rest of the page never runs.
        lastError := Some(e);
      case _ =>
        assert false;
    }
    var _ := handler.OnExecutionEnd(lastError);
    response := Final(handler.output);
    SingleScope(before, "");
    if debug {
      DebugKeepsEarlierOutput(unrecoverableErrorCallback, fatalErrorCallback, page, EscalatedException(error));
    } else {
      StagedPageResponse(unrecoverableErrorCallback, fatalErrorCallback, page, EscalatedException(error));
    }
  }

  /** A handler built with the constructor's defaults, as the source writes
      it, never stores `strict`; the first notice then makes `isStrict()`
      fail its `bool` return type, so the error handler throws instead of
      returning. */
  method DefaultHandlerAsWritten() returns (outcome: ErrorOutcome)
    ensures outcome == Threw
  {
    var handler := new PhpErrorHandler.AsWritten(false, false, None, None, None, None, Output([], ""));
    outcome := handler.HandleError(CodeOf(E_NOTICE), "Undefined variable: x", "index.php", 3);
  }

  /** With the constructor storing `strict`, the same notice is left to PHP
      (false) and nothing is echoed or logged. */
  method DefaultHandler() returns (outcome: ErrorOutcome)
    ensures outcome == Result(false)
  {
    var handler := new PhpErrorHandler(false, false, None, None, None, None, Output([], ""));
    outcome := handler.HandleError(CodeOf(E_NOTICE), "Undefined variable: x", "index.php", 3);
  }

  /** The handler's own scope holding `content`, with nothing sent yet. */
  lemma SingleScope(content: string, text: string)
    ensures Write(PageScope(content), text) == PageScope(content + text)
    ensures Final(PageScope(content)) == content
    ensures Passes(PageScope(content).scopes)
    ensures EndClean(PageScope(content)) == Output([], "")
  {
    assert [Scope(content, false)][1..] == [];
    assert Pending([]) == "";
  }

  /** Outside debug mode, when nothing was sent before the handler's scope,
      the response is exactly what the fatal path leaves: the fatal
      callback's text if it returns, what the unrecoverable callback echoed
      if that one ends the script, and the placeholder otherwise. */
  lemma StagedPageResponse(unrecoverable: Option<UnrecoverableErrorCallback>, fatal: Option<ErrorCallback>,
                           page: Output, exception: ErrorException)
    requires EndClean(page) == Output([], "")
    ensures var r := Final(FatalResponse(false, unrecoverable, fatal, page, exception).0);
            if UnrecoverableAborts(unrecoverable) then r == unrecoverable.value().echoed
            else if fatal.Some? && fatal.value(exception).Returned? then
              r == fatal.value(exception).echoed + ToPhpString(fatal.value(exception).value)
            else r == PlaceholderText(unrecoverable)
  {
    assert Final(Output([], "")) == "" by { assert Pending([]) == ""; }
    if UnrecoverableAborts(unrecoverable) {
      UnrecoverableAbortPreemptsFatal(unrecoverable, fatal, page, exception);
    } else if fatal.Some? && fatal.value(exception).Returned? {
      ReturningFatalCallbackReplacesOutput(unrecoverable, fatal.value, page, exception);
    } else {
      PlaceholderSurvives(unrecoverable, fatal, page, exception);
    }
  }
}
