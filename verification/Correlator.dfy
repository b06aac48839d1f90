/** Matching responses to requests by JSON-RPC id (src/correlate.rs). */
module Correlator {
  import opened Common
  import opened Json
  import opened FrameOrder
  import Privacy

  datatype Pending = Pending(method_: string, tool: Option<string>, sentMs: nat)

  datatype Outcome = OkOutcome | ErrorOutcome | UnknownOutcome | NotificationOutcome | UnparsedOutcome

  /** The fields of a `CallRecord` that correlation decides. */
  datatype Record = Record(seqNo: nat, method_: string, tool: Option<string>, latencyMs: Option<nat>, outcome: Outcome)

  datatype State = State(seqNo: nat, pending: map<string, Pending>)

  const START: State := State(0, map[])

  /** `id_key`: only string and number ids identify a request. */
  function IdKey(v: Value): Option<string> {
    match Get(v, "id")
    case Some(Str(s)) => Some("s:" + s)
    case Some(Number(n)) => Some("n:" + n)
    case _ => None
  }

  function Slot(scope: string, id: string): string { scope + ":" + id }

  function MethodOf(v: Value): Option<string> { AsStr(Get(v, "method")) }

  predicate IsResponse(v: Value) { Get(v, "result").Some? || Get(v, "error").Some? }

  /** A request that expects an answer: a method and an id. */
  predicate IsRequest(v: Value) { MethodOf(v).Some? && IdKey(v).Some? }

  function ToolOf(v: Value): Option<string> {
    match Get(v, "params")
    case Some(params) =>
      (match AsStr(Get(params, "name"))
       case Some(name) => Some(if Privacy.ValidTool(name) then name else "unlisted")
       case None => None)
    case None => None
  }

  /** `tool_result_is_error`: none when the result is malformed. */
  function ToolResultIsError(result: Value): Option<bool> {
    if !result.Obj? then None
    else match Get(result, "isError")
      case None => Some(false)
      case Some(Bool(b)) => Some(b)
      case Some(_) => None
  }

  function OutcomeOf(method_: string, response: Value): Outcome {
    var result := Get(response, "result");
    var toolError :=
      if result.None? then Some(false)
      else if method_ == "tools/call" then ToolResultIsError(result.value)
      else Some(Get(result.value, "isError") == Some(Bool(true)));
    if Get(response, "error").Some? || toolError == Some(true) then ErrorOutcome
    else if toolError.None? then UnknownOutcome
    else OkOutcome
  }

  function Since(now: nat, sent: nat): nat { if now >= sent then now - sent else 0 }

  function PendingFor(v: Value, nowMs: nat): Pending
    requires IsRequest(v)
  {
    Pending(MethodOf(v).value, ToolOf(v), nowMs)
  }

  /** The record of request `q` answered by `v`. */
  function CallRecord(seqNo: nat, q: Pending, v: Value, nowMs: nat): Record {
    Record(seqNo, q.method_, q.tool, Some(Since(nowMs, q.sentMs)), OutcomeOf(q.method_, v))
  }

  // ---------------------------------------------- what a record says of a call

  /** The tool a request names: as it is when it is a valid name. */
  predicate ReportsTool(tool: Option<string>, request: Value) {
    var name := if Get(request, "params").Some? then Get(Get(request, "params").value, "name") else None;
    if name.Some? && name.value.Str? then
      tool == Some(if Privacy.ValidTool(name.value.chars) then name.value.chars else "unlisted")
    else tool == None
  }

  /** An answer that says it failed: an error, or a result that is one. */
  predicate SaysError(response: Value) {
    || Get(response, "error").Some?
    || (Get(response, "result").Some? && Get(Get(response, "result").value, "isError") == Some(Bool(true)))
  }

  /** A tool result that cannot be read: no object, or `isError` no truth value. */
  predicate SaysNothing(request: Value, response: Value) {
    && Get(request, "method") == Some(Str("tools/call"))
    && Get(response, "error").None? && Get(response, "result").Some?
    && var result := Get(response, "result").value;
       !result.Obj? || (Get(result, "isError").Some? && !Get(result, "isError").value.Bool?)
  }

  /** The record of a call, told from the request and its answer alone. */
  predicate ReportsCall(r: Record, request: Value, sentMs: nat, response: Value, nowMs: nat) {
    && Get(request, "method") == Some(Str(r.method_))
    && ReportsTool(r.tool, request)
    && r.latencyMs.Some?
    && (if sentMs <= nowMs then sentMs + r.latencyMs.value == nowMs else r.latencyMs.value == 0)
    && (r.outcome == ErrorOutcome <==> SaysError(response))
    && (r.outcome == UnknownOutcome <==> SaysNothing(request, response))
    && r.outcome in {OkOutcome, ErrorOutcome, UnknownOutcome}
  }

  lemma {:induction false} CallReports(seqNo: nat, request: Value, sentMs: nat, response: Value, nowMs: nat)
    requires IsRequest(request)
    ensures
      var r := CallRecord(seqNo, PendingFor(request, sentMs), response, nowMs);
      ReportsCall(r, request, sentMs, response, nowMs) && r.seqNo == seqNo
  {
    var isError := if Get(response, "result").Some? then Get(Get(response, "result").value, "isError") else None;
    if isError.Some? && isError.value.Bool? {
      assert isError.value.flag || !isError.value.flag;
    }
  }

  /** An id that can be answered: a text or a number. */
  predicate HasId(v: Value) { Get(v, "id").Some? && (Get(v, "id").value.Str? || Get(v, "id").value.Number?) }

  /** A request is a named method with such an id, an answer has a result or an
      error, and two ids are told apart exactly when they differ. */
  lemma {:induction false} MessagesMean(v: Value, w: Value)
    ensures IsRequest(v) <==> Get(v, "method").Some? && Get(v, "method").value.Str? && HasId(v)
    ensures IsResponse(v) <==> Get(v, "result").Some? || Get(v, "error").Some?
    ensures IdKey(v).Some? <==> HasId(v)
    ensures HasId(v) && HasId(w) ==> (IdKey(v) == IdKey(w) <==> Get(v, "id") == Get(w, "id"))
  {
    if HasId(v) && HasId(w) && IdKey(v) == IdKey(w) {
      var x, y := IdKey(v).value, IdKey(w).value;
      assert x[0] == y[0] && x[2..] == y[2..];
    }
  }

  function OnOutbound(c: State, v: Value, nowMs: nat, scope: string): State {
    if !IsRequest(v) then c
    else c.(pending := c.pending[Slot(scope, IdKey(v).value) := PendingFor(v, nowMs)])
  }

  function OnInbound(c: State, v: Value, nowMs: nat, scope: string): (State, Option<Record>) {
    match IdKey(v)
    case Some(id) =>
      var slot := Slot(scope, id);
      if !IsResponse(v) || slot !in c.pending then (c, None)
      else (State(c.seqNo + 1, c.pending - {slot}), Some(CallRecord(c.seqNo + 1, c.pending[slot], v, nowMs)))
    case None =>
      (match MethodOf(v)
       case None => (c, None)
       case Some(m) => (c.(seqNo := c.seqNo + 1), Some(Record(c.seqNo + 1, m, None, None, NotificationOutcome))))
  }

  function UnparsedRecord(seqNo: nat, direction: Direction): Record {
    Record(seqNo, "unparsed/" + (if direction.Outbound? then "outbound" else "inbound"), None, None, UnparsedOutcome)
  }

  function OnUnparsed(c: State, direction: Direction): (State, Record) {
    (c.(seqNo := c.seqNo + 1), UnparsedRecord(c.seqNo + 1, direction))
  }

  class Correlator {
    var seqNo: nat
    var pending: map<string, Pending>

    function View(): State reads this { State(seqNo, pending) }

    constructor ()
      ensures View() == START
    {
      seqNo, pending := 0, map[];
    }

    method Outbound(v: Value, nowMs: nat, scope: string)
      modifies this
      ensures View() == OnOutbound(old(View()), v, nowMs, scope)
    {
      var m := MethodOf(v);
      if m.None? {
        return;
      }
      var id := IdKey(v);
      if id.None? {
        return;
      }
      pending := pending[Slot(scope, id.value) := Pending(m.value, ToolOf(v), nowMs)];
    }

    method Inbound(v: Value, nowMs: nat, scope: string) returns (record: Option<Record>)
      modifies this
      ensures (View(), record) == OnInbound(old(View()), v, nowMs, scope)
    {
      match IdKey(v) {
        case Some(id) =>
          var slot := Slot(scope, id);
          if !IsResponse(v) || slot !in pending {
            return None;
          }
          var p := pending[slot];
          pending := pending - {slot};
          seqNo := seqNo + 1;
          return Some(CallRecord(seqNo, p, v, nowMs));
        case None =>
          var m := MethodOf(v);
          if m.None? {
            return None;
          }
          seqNo := seqNo + 1;
          return Some(Record(seqNo, m.value, None, None, NotificationOutcome));
      }
    }

    method Unparsed(direction: Direction) returns (record: Record)
      modifies this
      ensures (View(), record) == OnUnparsed(old(View()), direction)
    {
      seqNo := seqNo + 1;
      record := UnparsedRecord(seqNo, direction);
    }
  }

  /** What recording does with one released frame; the stdio shim uses the
      empty scope. */
  function Feed(c: State, f: Completed): (State, Option<Record>) {
    match f.metadata.value
    case None => var (d, r) := OnUnparsed(c, f.metadata.direction); (d, Some(r))
    case Some(v) =>
      if f.metadata.direction.Outbound? then (OnOutbound(c, v, f.metadata.observedMs, ""), None)
      else OnInbound(c, v, f.metadata.observedMs, "")
  }

  function FeedAll(c: State, frames: seq<Completed>): (State, seq<Record>) {
    if frames == [] then (c, [])
    else
      var n := |frames| - 1;
      var (d, records) := FeedAll(c, frames[..n]);
      var (e, record) := Feed(d, frames[n]);
      (e, records + if record.Some? then [record.value] else [])
  }

  lemma {:induction false} FeedAllConcat(c: State, a: seq<Completed>, b: seq<Completed>)
    ensures
      var (d, ra) := FeedAll(c, a);
      var (e, rb) := FeedAll(d, b);
      FeedAll(c, a + b) == (e, ra + rb)
  {
    if b == [] {
      assert a + b == a;
      assert FeedAll(c, a).1 + [] == FeedAll(c, a).1;
    } else {
      var n := |b| - 1;
      FeedAllConcat(c, a, b[..n]);
      assert (a + b)[..|a + b| - 1] == a + b[..n];
      assert (a + b)[|a + b| - 1] == b[n];
      var (d, ra) := FeedAll(c, a);
      var (d', rb) := FeedAll(d, b[..n]);
      var record := Feed(d', b[n]).1;
      var last := if record.Some? then [record.value] else [];
      assert FeedAll(c, a + b).1 == ra + rb + last;
      assert ra + rb + last == ra + (rb + last);
    }
  }

  /** `handle_event`: one event through the buffer and, frame by frame, into the
      correlator; the records are appended to the store. */
  method HandleEvent(e: Event, order: Buffer, correlator: Correlator, store: seq<Record>)
    returns (stored: seq<Record>, error: Option<OrderError>)
    requires order.Valid()
    modifies order, correlator
    ensures order.Valid()
    ensures
      var (o, frames, err) := Handle(old(order.View()), e);
      && order.View() == o && error == err
      && correlator.View() == FeedAll(old(correlator.View()), frames).0
      && stored == store + FeedAll(old(correlator.View()), frames).1
  {
    error := None;
    match e {
      case ReservedEvent(sequence, metadata) =>
        error := order.Reserve(sequence, metadata);
      case ForwardedEvent(sequence, selfUs) =>
        error := order.Complete(sequence, selfUs);
      case FinishedEvent(direction, _) =>
        order.RetireUnfinished(direction);
    }
    var ready := order.DrainReady();
    stored := store;
    ghost var start := correlator.View();
    ghost var drained := order.View();
    for i := 0 to |ready|
      invariant order.Valid() && order.View() == drained
      invariant correlator.View() == FeedAll(start, ready[..i]).0
      invariant stored == store + FeedAll(start, ready[..i]).1
    {
      var frame := ready[i];
      assert ready[..i + 1][..i] == ready[..i];
      var record: Option<Record> := None;
      match (frame.metadata.direction, frame.metadata.value) {
        case (Outbound, Some(v)) =>
          correlator.Outbound(v, frame.metadata.observedMs, "");
        case (Inbound, Some(v)) =>
          record := correlator.Inbound(v, frame.metadata.observedMs, "");
        case (direction, None) =>
          var r := correlator.Unparsed(direction);
          record := Some(r);
      }
      if record.Some? {
        stored := stored + [record.value];
      }
    }
    assert ready[..|ready|] == ready;
  }

  /** Pending requests are kept apart by scope and id alike, as long as no scope
      holds the separator. */
  lemma {:induction false} SlotsAreDistinct(s: string, i: string, t: string, j: string)
    requires ':' !in s && ':' !in t
    ensures Slot(s, i) == Slot(t, j) <==> s == t && i == j
  {
    if Slot(s, i) == Slot(t, j) {
      var x := Slot(s, i);
      assert x[|s|] == ':' && x[|t|] == ':';
      assert forall k :: 0 <= k < |t| ==> x[k] == t[k] && t[k] in t;
      assert forall k :: 0 <= k < |s| ==> x[k] == s[k] && s[k] in s;
      assert |s| == |t|;
      assert s == x[..|s|] && t == x[..|t|];
      assert i == x[|s| + 1..] && j == x[|t| + 1..];
    }
  }
}
