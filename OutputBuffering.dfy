/** PHP's output-buffer stack, made explicit. Output goes to the topmost
    open scope, or straight to the client when no scope is open; closing a
    scope either drops what it holds (`ob_end_clean`) or hands it to the
    scope below (`ob_end_flush`); whatever is still buffered when the
    process ends is flushed scope by scope. A scope may carry a transform
    that turns its contents into nothing when it is flushed. */
module OutputBuffering {

  /** One capture scope; `discardOnFlush` is the transform that yields
      nothing. */
  datatype Scope = Scope(content: string, discardOnFlush: bool)

  /** The open scopes, bottom first, and the text already sent to the
      client. */
  datatype Output = Output(scopes: seq<Scope>, sent: string)

  /** What a scope hands down when it is flushed. */
  function Emitted(scope: Scope): string {
    if scope.discardOnFlush then "" else scope.content
  }

  /** No scope in `scopes` discards what is flushed into it. */
  predicate Passes(scopes: seq<Scope>) {
    forall k :: 0 <= k < |scopes| ==> !scopes[k].discardOnFlush
  }

  /** The text that reaches the client from the open scopes when every one
      of them is flushed, top first. */
  function Pending(scopes: seq<Scope>): string {
    if scopes == [] then ""
    else if scopes[0].discardOnFlush then ""
    else scopes[0].content + Pending(scopes[1..])
  }

  /** Everything the client receives if nothing further is written. */
  function Final(o: Output): string {
    o.sent + Pending(o.scopes)
  }

  /** Adding a scope on top adds its flushed text to the pending output
      when no scope below it discards. */
  lemma {:induction false} PendingSnoc(lower: seq<Scope>, top: Scope)
    ensures Pending(lower + [top]) == Pending(lower) + (if Passes(lower) then Emitted(top) else "")
  {
    if lower == [] {
      assert lower + [top] == [top];
      assert [top][1..] == [];
    } else {
      assert (lower + [top])[1..] == lower[1..] + [top];
      PendingSnoc(lower[1..], top);
      if !lower[0].discardOnFlush {
        assert Passes(lower) == Passes(lower[1..]) by {
          if Passes(lower[1..]) {
            forall k | 0 <= k < |lower| ensures !lower[k].discardOnFlush {
              if k > 0 { assert lower[k] == lower[1..][k - 1]; }
            }
          }
        }
      }
    }
  }

  /** `ob_start`: opens an empty scope on top. */
  function Start(o: Output, discardOnFlush: bool): Output {
    Push(o, Scope("", discardOnFlush))
  }

  /** Opens a scope that already holds `content`. */
  function Push(o: Output, scope: Scope): Output {
    Output(o.scopes + [scope], o.sent)
  }

  /** `ob_get_contents`: the top scope's text. With no scope open PHP
      returns false, which concatenates as the empty string. */
  function Contents(o: Output): string {
    if o.scopes == [] then "" else o.scopes[|o.scopes| - 1].content
  }

  /** `echo`: appends to the top scope, or sends when no scope is open. */
  function Write(o: Output, text: string): Output {
    if o.scopes == [] then Output([], o.sent + text)
    else
      var n := |o.scopes|;
      var top := o.scopes[n - 1];
      Output(o.scopes[..n - 1] + [Scope(top.content + text, top.discardOnFlush)], o.sent)
  }

  /** `ob_end_clean`: closes the top scope and drops what it holds; a no-op
      when no scope is open. */
  function EndClean(o: Output): Output {
    if o.scopes == [] then o else Output(o.scopes[..|o.scopes| - 1], o.sent)
  }

  /** `ob_end_flush`: closes the top scope and hands its (transformed) text
      to the scope below, or to the client; a no-op when no scope is open. */
  function EndFlush(o: Output): Output {
    if o.scopes == [] then o
    else
      var n := |o.scopes|;
      Write(Output(o.scopes[..n - 1], o.sent), Emitted(o.scopes[n - 1]))
  }

  /** Opening a scope leaves the client's eventual output as it was, and
      what is written next lands in the new scope. */
  lemma StartKeepsFinal(o: Output, discardOnFlush: bool)
    ensures Final(Start(o, discardOnFlush)) == Final(o)
    ensures Contents(Start(o, discardOnFlush)) == ""
    ensures EndClean(Start(o, discardOnFlush)) == o
  {
    PendingSnoc(o.scopes, Scope("", discardOnFlush));
    EndCleanPush(o, Scope("", discardOnFlush));
  }

  /** A pushed scope's flushed text is added to the client's eventual
      output, unless a scope below discards it. */
  lemma PushFinal(o: Output, scope: Scope)
    ensures Final(Push(o, scope)) == Final(o) + (if Passes(o.scopes) then Emitted(scope) else "")
  {
    PendingSnoc(o.scopes, scope);
  }

  /** Closing a scope just opened, without flushing, restores the stack. */
  lemma EndCleanPush(o: Output, scope: Scope)
    ensures EndClean(Push(o, scope)) == o
  {
    assert (o.scopes + [scope])[..|o.scopes|] == o.scopes;
  }

  /** Writing into a scope just opened is opening it with that text. */
  lemma WriteOnPushed(o: Output, scope: Scope, text: string)
    ensures Write(Push(o, scope), text) == Push(o, Scope(scope.content + text, scope.discardOnFlush))
  {
    assert (o.scopes + [scope])[..|o.scopes|] == o.scopes;
  }

  /** Writing into a scope just opened empty is opening it with that text. */
  lemma WriteOnStarted(o: Output, discardOnFlush: bool, text: string)
    ensures Write(Start(o, discardOnFlush), text) == Push(o, Scope(text, discardOnFlush))
  {
    WriteOnPushed(o, Scope("", discardOnFlush), text);
    assert "" + text == text;
  }

  /** `echo` keeps the scope depth and changes nothing below the top
      scope, whose text gains exactly what is written. */
  lemma WriteShape(o: Output, text: string)
    ensures |Write(o, text).scopes| == |o.scopes|
    ensures o.scopes != [] ==> Write(o, text).sent == o.sent
    ensures o.scopes != [] ==> Contents(Write(o, text)) == Contents(o) + text
    ensures o.scopes != [] ==> Write(o, text).scopes[..|o.scopes| - 1] == o.scopes[..|o.scopes| - 1]
    ensures forall k :: 0 <= k < |o.scopes| ==>
              Write(o, text).scopes[k].discardOnFlush == o.scopes[k].discardOnFlush
    ensures o.scopes == [] ==> Write(o, text).sent == o.sent + text
    ensures Passes(Write(o, text).scopes) == Passes(o.scopes)
  {
    if o.scopes != [] {
      var m := |o.scopes|;
      var top := o.scopes[m - 1];
      var rest := o.scopes[..m - 1];
      assert o.scopes == rest + [top];
      PassesSnoc(rest, top);
      PassesSnoc(rest, Scope(top.content + text, top.discardOnFlush));
    }
  }

  /** `echo` adds exactly its text to what the client eventually receives,
      unless an open scope discards it. */
  lemma {:induction false} WriteFinal(o: Output, text: string)
    ensures Final(Write(o, text)) == Final(o) + (if Passes(o.scopes) then text else "")
  {
    if o.scopes == [] {
      assert Pending([]) == "";
    } else {
      var m := |o.scopes|;
      var top := o.scopes[m - 1];
      var rest := o.scopes[..m - 1];
      var written := Scope(top.content + text, top.discardOnFlush);
      assert o.scopes == rest + [top];
      assert Write(o, text).scopes == rest + [written];
      PendingSnoc(rest, top);
      PendingSnoc(rest, written);
      PassesSnoc(rest, top);
    }
  }

  /** No scope discards in a stack with one more scope on top exactly when
      none discards below and the top one does not either. */
  lemma PassesSnoc(lower: seq<Scope>, top: Scope)
    ensures Passes(lower + [top]) == (Passes(lower) && !top.discardOnFlush)
  {
    var all := lower + [top];
    if Passes(lower) && !top.discardOnFlush {
      forall k | 0 <= k < |all| ensures !all[k].discardOnFlush {
        if k < |lower| { assert all[k] == lower[k]; }
      }
    }
    if Passes(all) {
      assert all[|lower|] == top;
      forall k | 0 <= k < |lower| ensures !lower[k].discardOnFlush {
        assert all[k] == lower[k];
      }
    }
  }

  /** Two writes in a row are one write of the concatenation. */
  lemma WriteTwice(o: Output, a: string, b: string)
    ensures Write(Write(o, a), b) == Write(o, a + b)
  {
    if o.scopes != [] {
      var n := |o.scopes|;
      assert (Write(o, a).scopes)[..n - 1] == o.scopes[..n - 1];
      assert o.scopes[n - 1].content + a + b == o.scopes[n - 1].content + (a + b);
    } else {
      assert o.sent + a + b == o.sent + (a + b);
    }
  }

  /** `ob_end_clean` takes exactly the top scope's flushed text out of what
      the client eventually receives. */
  lemma EndCleanFinal(o: Output)
    requires o.scopes != []
    ensures Final(o) == Final(EndClean(o)) + (if Passes(EndClean(o).scopes) then Emitted(o.scopes[|o.scopes| - 1]) else "")
  {
    var n := |o.scopes|;
    assert o.scopes == o.scopes[..n - 1] + [o.scopes[n - 1]];
    PendingSnoc(o.scopes[..n - 1], o.scopes[n - 1]);
  }

  /** Closing a scope, either way, keeps a stack in which nothing discards. */
  lemma EndPasses(o: Output)
    requires Passes(o.scopes)
    ensures Passes(EndClean(o).scopes) && Passes(EndFlush(o).scopes)
  {
    if o.scopes != [] {
      var n := |o.scopes|;
      assert o.scopes == o.scopes[..n - 1] + [o.scopes[n - 1]];
      PassesSnoc(o.scopes[..n - 1], o.scopes[n - 1]);
      WriteShape(Output(o.scopes[..n - 1], o.sent), Emitted(o.scopes[n - 1]));
    }
  }

  /** `ob_end_flush` removes one scope and leaves the client's eventual
      output unchanged. */
  lemma {:induction false} EndFlushKeepsFinal(o: Output)
    ensures o.scopes != [] ==> |EndFlush(o).scopes| == |o.scopes| - 1
    ensures Final(EndFlush(o)) == Final(o)
  {
    if o.scopes != [] {
      var n := |o.scopes|;
      var lower := Output(o.scopes[..n - 1], o.sent);
      var top := o.scopes[n - 1];
      assert o.scopes == lower.scopes + [top];
      PendingSnoc(lower.scopes, top);
      WriteFinal(lower, Emitted(top));
    }
  }

  /** Process end: every open scope is flushed, top first. */
  function Shutdown(o: Output): Output {
    Output([], Final(o))
  }

  /** `ob_end_flush` applied `count` times. */
  function FlushTimes(o: Output, count: nat): Output
    decreases count
  {
    if count == 0 then o else FlushTimes(EndFlush(o), count - 1)
  }

  /** Flushing at process end is the same as closing every scope with
      `ob_end_flush`, one by one from the top. */
  lemma {:induction false} ShutdownFlushesEveryScope(o: Output)
    ensures FlushTimes(o, |o.scopes|) == Shutdown(o)
    decreases |o.scopes|
  {
    if o.scopes == [] {
      assert Pending([]) == "";
    } else {
      EndFlushKeepsFinal(o);
      ShutdownFlushesEveryScope(EndFlush(o));
    }
  }
}
