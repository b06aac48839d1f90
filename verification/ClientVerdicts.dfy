/** What the client makes of an answer: the verdict on a tool call and on a
    cancelled one, told from the fields of the frame it took. */
module ClientVerdicts {
  import opened Common
  import opened Json
  import opened Client
  import opened ClientLaws

  // ------------------------------------------------------------------ tool calls

  /** A well-formed tool result, and whether it reports a failure. */
  predicate ResultSays(result: Value, failed: bool) {
    && result.Obj?
    && (Get(result, "isError") == Some(Bool(failed)) || (!failed && Get(result, "isError").None?))
  }

  /** The text of the first content item, when it has one. */
  predicate FirstText(result: Value, text: string) {
    && Get(result, "content").Some? && Get(result, "content").value.Arr?
    && Get(result, "content").value.items != []
    && Get(Get(result, "content").value.items[0], "text") == Some(Str(text))
  }

  predicate ErrorCode(v: Value, code: int) {
    && Get(v, "error").Some? && Get(v, "error").value.Obj?
    && AsI64(Get(Get(v, "error").value, "code")) == Some(code)
  }

  /** What a tool error carries: the result's own text, or the error object. */
  ghost predicate ErrorSays(v: Value, code: int, payload: Value) {
    if Get(v, "result").Some? then
      && code == -32000
      && Get(payload, "code") == Some(Str("tool-error"))
      && (forall text :: FirstText(Get(v, "result").value, text) ==> Get(payload, "message") == Some(Str(text)))
      && ((forall text :: !FirstText(Get(v, "result").value, text)) ==>
            Get(payload, "message") == Some(Str("tool error")))
    else Some(payload) == Get(v, "error") && ErrorCode(v, code)
  }

  /** The verdict on a response. */
  ghost predicate Verdict(v: Value, r: Result<ToolResponse>) {
    var result := Get(v, "result");
    if result.Some? && ResultSays(result.value, false) then r == Done(Success(result.value))
    else if (result.Some? && ResultSays(result.value, true)) || (result.None? && exists code :: ErrorCode(v, code)) then
      r.Done? && r.value.ToolError? && ErrorSays(v, r.value.code, r.value.payload)
    else r == Failed(if result.Some? then MalformedResult else MalformedError)
  }

  lemma {:induction false} FirstTextIs(result: Value)
    requires result.Obj?
    ensures forall text :: FirstText(result, text) ==> ErrorText(result) == text
    ensures (forall text :: !FirstText(result, text)) ==> ErrorText(result) == "tool error"
  {
    var content := Get(result, "content");
    if content.Some? && content.value.Arr? && content.value.items != [] {
      var text := AsStr(Get(content.value.items[0], "text"));
      if text.Some? {
        assert FirstText(result, text.value);
      }
    }
  }

  lemma {:induction false} ToolErrorFields(text: string)
    ensures
      var payload := Obj([Field("code", Str("tool-error")), Field("message", Str(text))]);
      Get(payload, "code") == Some(Str("tool-error")) && Get(payload, "message") == Some(Str(text))
  {
    var fields := [Field("code", Str("tool-error")), Field("message", Str(text))];
    assert fields[1..] == [Field("message", Str(text))];
    assert |"code"| != |"message"|;
    assert Lookup(fields[1..], "message") == Some(Str(text));
  }

  lemma {:induction false} ClassifyIsVerdict(v: Value)
    ensures Verdict(v, Classify(v))
  {
    match Get(v, "result")
    case Some(result) =>
      if ResultSays(result, true) {
        FirstTextIs(result);
        ToolErrorFields(ErrorText(result));
      }
    case None =>
      if Get(v, "error").Some? && Get(v, "error").value.Obj? {
        var code := AsI64(Get(Get(v, "error").value, "code"));
        assert code.Some? ==> ErrorCode(v, code.value);
      }
  }

  /** The update a wait looks for names its resource. */
  lemma {:induction false} UpdatesMean(v: Value, uri: string)
    ensures IsUpdate(v, uri) <==>
      && Get(v, "method") == Some(Str("notifications/resources/updated"))
      && exists params :: Get(v, "params") == Some(params) && Get(params, "uri") == Some(Str(uri))
  {
  }

  /** A rejection of a frame whose id the server could not read. */
  predicate Rejects(v: Value) {
    && Get(v, "jsonrpc") == Some(Str("2.0")) && Get(v, "id") == Some(Null)
    && Get(v, "result").None? && Get(v, "error").Some?
    && AsI64(Get(Get(v, "error").value, "code")) in {Some(-32600), Some(-32700)}
    && Get(Get(v, "error").value, "message").Some? && Get(Get(v, "error").value, "message").value.Str?
  }

  /** The frame a call takes its verdict from. */
  predicate IsAnswer(v: Value, id: nat, allowRejection: bool) {
    && v.Obj? && Get(v, "id").Some? && (Get(v, "result").Some? || Get(v, "error").Some?)
    && (IdOf(v) == Some(id) || (allowRejection && Rejects(v)))
  }

  lemma {:induction false} StepVerdict(c: State, id: nat, served: nat, limit: nat, allowRejection: bool,
                                       frame: Option<Value>, fate: nat -> Fate)
    ensures
      var step := OnToolFrame(c, id, served, limit, allowRejection, frame, fate);
      if frame.Some? && IsAnswer(frame.value, id, allowRejection) && !IsAbandonedReply(c, frame.value)
      then step.Over? && step.client == c && Verdict(frame.value, step.result)
      else step.Over? ==> step.result in {Failed(IdMismatch), Failed(TooManyRequests), Failed(NotWritten)}
  {
    if frame.Some? {
      ClassifyIsVerdict(frame.value);
    }
  }

  /** How an observed tool call may end without an answer. */
  predicate Unanswered(r: Result<ToolResponse>) {
    r in {Failed(TimedOut), Failed(TransportClosed), Failed(IdMismatch), Failed(TooManyRequests), Failed(NotWritten)}
  }

  lemma {:induction false} AwaitToolVerdict(c: State, id: nat, served: nat, limit: nat, allowRejection: bool,
                                            incoming: seq<Incoming>, fate: nat -> Fate)
    ensures
      var e := AwaitTool(c, id, served, limit, allowRejection, incoming, fate);
      !Unanswered(e.result) ==>
        && 0 < e.read <= |incoming| && incoming[e.read - 1].Line? && incoming[e.read - 1].frame.Some?
        && IsAnswer(incoming[e.read - 1].frame.value, id, allowRejection)
        && Verdict(incoming[e.read - 1].frame.value, e.result)
    decreases |incoming|
  {
    if incoming != [] && incoming[0].Line? {
      StepVerdict(c, id, served, limit, allowRejection, incoming[0].frame, fate);
      match OnToolFrame(c, id, served, limit, allowRejection, incoming[0].frame, fate)
      case Over(_, _) =>
      case Absorbed(d, s) => AwaitToolVerdict(d, id, s, limit, allowRejection, incoming[1..], fate);
    }
  }

  /** A tool call that answers server requests ends in a failure of the wait, or
      in the verdict on the last frame it read, which is an answer to it. */
  lemma {:induction false} CallToolVerdict(c: State, limit: nat, allowRejection: bool, incoming: seq<Incoming>,
                                           fate: nat -> Fate)
    ensures
      var e := CallTool(c, limit, allowRejection, incoming, fate);
      !Unanswered(e.result) ==>
        && 0 < e.read <= |incoming| && incoming[e.read - 1].Line? && incoming[e.read - 1].frame.Some?
        && IsAnswer(incoming[e.read - 1].frame.value, c.nextId, allowRejection)
        && Verdict(incoming[e.read - 1].frame.value, e.result)
  {
    var d := Write(c.(nextId := c.nextId + 1), fate(0)).0;
    AwaitToolVerdict(d, c.nextId, 0, limit, allowRejection, incoming, fate);
  }

  // ---------------------------------------------------------------- cancellation

  /** Passed over by a cancelled call: a frame under another id, or none. */
  predicate Passed(i: Incoming, id: nat) { i.Line? && (i.frame.None? || IdOf(i.frame.value) != Some(id)) }

  /** A 2.0 envelope with one of result and error. */
  predicate WellFormedAnswer(v: Value) {
    Get(v, "jsonrpc") == Some(Str("2.0")) && (Get(v, "result").Some? <==> Get(v, "error").None?)
  }

  predicate Acknowledges(v: Value) {
    Get(v, "error").Some? && AsI64(Get(Get(v, "error").value, "code")) == Some(-32800)
  }

  /** What a cancelled call concludes from the frame under its id. */
  predicate Resolves(v: Value, r: Result<Cancellation>) {
    var answered := WellFormedAnswer(v);
    var result := Get(v, "result");
    && (r == Done(Honored) <==> answered && Acknowledges(v))
    && (r == Done(Ignored) <==> answered && result.Some? && ResultSays(result.value, false))
    && (r == Done(Errored) <==>
          answered && if result.Some? then ResultSays(result.value, true) else !Acknowledges(v))
    && (r == Failed(InvalidCancellation) <==> !answered)
    && (r == Failed(MalformedResult) <==>
          answered && result.Some? && !ResultSays(result.value, true) && !ResultSays(result.value, false))
  }

  lemma {:induction false} ResolutionResolves(v: Value)
    ensures Resolves(v, Resolution(v))
  {
    ClassifyIsVerdict(v);
  }

  lemma {:induction false} AwaitCancelledVerdict(c: State, id: nat, incoming: seq<Incoming>, n: nat)
    requires n <= |incoming| && forall i :: 0 <= i < n ==> Passed(incoming[i], id)
    requires n < |incoming| ==> !Passed(incoming[n], id)
    ensures
      var r := AwaitCancelled(c, id, incoming).result;
      if n == |incoming| || incoming[n].Timeout? then r == Done(Honored)
      else if incoming[n].Closed? then r == Failed(TransportClosed)
      else Resolves(incoming[n].frame.value, r)
    decreases |incoming|
  {
    if n > 0 {
      assert Passed(incoming[0], id);
      assert forall i :: 0 <= i < n - 1 ==> incoming[1..][i] == incoming[i + 1];
      AwaitCancelledVerdict(c, id, incoming[1..], n - 1);
    } else if incoming != [] && incoming[0].Line? {
      ResolutionResolves(incoming[0].frame.value);
    }
  }

  /** A cancelled call whose two frames were written is honored by silence or by
      an acknowledging error, ignored by a result, and answered wrongly by any
      other well-formed answer; `n` frames are passed over before it ends. */
  lemma {:induction false} CancelVerdict(c: State, incoming: seq<Incoming>, fate: nat -> Fate, n: nat)
    requires n <= |incoming| && forall i :: 0 <= i < n ==> Passed(incoming[i], c.nextId)
    requires n < |incoming| ==> !Passed(incoming[n], c.nextId)
    ensures
      var r := CancelCall(c, incoming, fate).result;
      if c.failed || fate(0) != Accepted || fate(1) != Accepted then r == Failed(NotWritten)
      else if n == |incoming| || incoming[n].Timeout? then r == Done(Honored)
      else if incoming[n].Closed? then r == Failed(TransportClosed)
      else Resolves(incoming[n].frame.value, r)
  {
    var d := Write(Write(c.(nextId := c.nextId + 1), fate(0)).0, fate(1)).0;
    AwaitCancelledVerdict(d, c.nextId, incoming, n);
  }
}
