/** The sequential MCP client over stdio (src/mcp_client.rs): what arrives is a
    script of frames, and each frame either ends the wait or is absorbed. */
module Client {
  import opened Common
  import opened Json

  const MAX_NOTIFICATIONS: nat := 128
  const MAX_FRAME_BYTES: nat := 4 * 1024 * 1024
  const MAX_SERVER_REQUESTS: nat := 8
  const CANCELLED: int := -32800

  // ------------------------------------------------------------- data model

  datatype Incoming = Timeout | Closed | Line(frame: Option<Value>, bytes: nat)

  /** What becomes of one frame the client writes. */
  datatype Fate = Accepted | Declined | Broken

  datatype Notification = Notification(frame: Value, bytes: nat)

  datatype State = State(nextId: nat, abandoned: set<nat>, notifications: seq<Notification>,
                         notificationBytes: nat, failed: bool, emptyRoots: bool)

  const START := State(1, {}, [], 0, false, false)

  datatype Failure =
    | TimedOut | TransportClosed | IdMismatch | NotOneResult | RootsLimit | BufferFull | NotWritten
    | TooManyRequests | MalformedResult | MalformedError | InvalidCancellation

  datatype ToolResponse = Success(result: Value) | ToolError(code: int, payload: Value)

  datatype Cancellation = Honored | Ignored | Errored

  datatype Result<T> = Done(value: T) | Failed(why: Failure)

  /** Where a wait ended: the client, the result, and how much was read. */
  datatype Ended<T> = Ended(client: State, result: Result<T>, read: nat)

  // --------------------------------------------------------------- envelopes

  predicate Has(v: Value, key: string) { Get(v, key).Some? }

  predicate IsTwo(v: Value) { AsStr(Get(v, "jsonrpc")) == Some("2.0") }

  function IdOf(v: Value): Option<nat> { AsU64(Get(v, "id")) }

  function MethodOf(v: Value): Option<string> { AsStr(Get(v, "method")) }

  predicate OneResult(v: Value) { Has(v, "result") != Has(v, "error") }

  predicate IsUpdate(v: Value, uri: string) {
    && MethodOf(v) == Some("notifications/resources/updated")
    && Get(v, "params").Some?
    && AsStr(Get(Get(v, "params").value, "uri")) == Some(uri)
  }

  // ----------------------------------------------------------- small updates

  /** `write`, to whatever fate the transport gives the frame. */
  function Write(c: State, fate: Fate): (State, bool) {
    if c.failed || fate == Declined then (c, false)
    else if fate == Broken then (c.(failed := true), false)
    else (c, true)
  }

  function Abandon(c: State, id: nat): State { c.(abandoned := c.abandoned + {id}) }

  function Forget(c: State, v: Value): State {
    if IdOf(v).Some? then c.(abandoned := c.abandoned - {IdOf(v).value}) else c
  }

  predicate IsAbandonedReply(c: State, v: Value) { IdOf(v).Some? && IdOf(v).value in c.abandoned }

  predicate Fits(c: State, bytes: nat) {
    |c.notifications| < MAX_NOTIFICATIONS && bytes <= MAX_FRAME_BYTES - c.notificationBytes
  }

  function Remember(c: State, v: Value, bytes: nat): (State, bool) {
    if Fits(c, bytes) then
      (c.(notifications := c.notifications + [Notification(v, bytes)],
          notificationBytes := c.notificationBytes + bytes),
       true)
    else (c.(failed := true), false)
  }

  // ----------------------------------------------------------------- request

  /** One frame read while request `id` is outstanding: absorbed, or the end.
      `served` is how many roots requests were answered so far. */
  datatype Step<T> = Absorbed(client: State, served: nat) | Over(client: State, result: Result<T>)

  function OnFrame(c: State, id: nat, served: nat, frame: Option<Value>, bytes: nat, fate: nat -> Fate): Step<Value> {
    if frame.None? || !frame.value.Obj? || !IsTwo(frame.value) then Absorbed(c, served)
    else
      var v := frame.value;
      if !Has(v, "id") then
        if MethodOf(v).None? then Absorbed(c, served)
        else
          var (d, kept) := Remember(c, v, bytes);
          if kept then Absorbed(d, served) else Over(d, Failed(BufferFull))
      else if c.emptyRoots && MethodOf(v) == Some("roots/list") then
        if served + 1 > MAX_SERVER_REQUESTS then Over(c, Failed(RootsLimit))
        else
          var (d, written) := Write(c, fate(served + 1));
          if written then Absorbed(d, served + 1) else Over(d, Failed(NotWritten))
      else if IsAbandonedReply(c, v) then Absorbed(Forget(c, v), served)
      else if IdOf(v) != Some(id) then Over(c, Failed(IdMismatch))
      else if !OneResult(v) then Over(c, Failed(NotOneResult))
      else Over(c, Done(v))
  }

  function Later<T>(e: Ended<T>, read: nat): Ended<T> { e.(read := e.read + read) }

  function Await(c: State, id: nat, served: nat, incoming: seq<Incoming>, fate: nat -> Fate): Ended<Value>
    decreases |incoming|
  {
    if incoming == [] then Ended(Abandon(c, id), Failed(TimedOut), 0)
    else match incoming[0]
      case Timeout => Ended(Abandon(c, id), Failed(TimedOut), 1)
      case Closed => Ended(c, Failed(TransportClosed), 1)
      case Line(frame, bytes) =>
        match OnFrame(c, id, served, frame, bytes, fate)
        case Over(d, result) => Ended(d, result, 1)
        case Absorbed(d, s) =>
          Later(Await(d, id, s, incoming[1..], fate), 1)
  }

  function Request(c: State, incoming: seq<Incoming>, fate: nat -> Fate): Ended<Value> {
    var (d, written) := Write(c.(nextId := c.nextId + 1), fate(0));
    if !written then Ended(d, Failed(NotWritten), 0) else Await(d, c.nextId, 0, incoming, fate)
  }

  // ------------------------------------------------------- observed tool call

  /** None when `isError` is malformed. */
  function ToolResultIsError(result: Value): Option<bool> {
    if !result.Obj? then None
    else match Get(result, "isError")
      case None => Some(false)
      case Some(Bool(b)) => Some(b)
      case Some(_) => None
  }

  function ErrorText(result: Value): string {
    match Get(result, "content")
    case Some(Arr(items)) =>
      if items == [] then "tool error"
      else (match AsStr(Get(items[0], "text")) case Some(text) => text case None => "tool error")
    case _ => "tool error"
  }

  function Classify(v: Value): Result<ToolResponse> {
    match Get(v, "result")
    case Some(result) =>
      (match ToolResultIsError(result)
       case None => Failed(MalformedResult)
       case Some(true) =>
         Done(ToolError(-32000, Obj([Field("code", Str("tool-error")), Field("message", Str(ErrorText(result)))])))
       case Some(false) => Done(Success(result)))
    case None =>
      match Get(v, "error")
      case Some(Obj(fields)) =>
        (match AsI64(Lookup(fields, "code"))
         case Some(code) => Done(ToolError(code, Obj(fields)))
         case None => Failed(MalformedError))
      case _ => Failed(MalformedError)
  }

  predicate IsResponse(v: Value) { Has(v, "id") && (Has(v, "result") || Has(v, "error")) }

  /** A parse or invalid-request rejection sent before the id could be read. */
  predicate IsFrameRejection(v: Value) {
    && IsTwo(v)
    && Get(v, "id") == Some(Null)
    && !Has(v, "result")
    && Get(v, "error").Some?
    && AsI64(Get(Get(v, "error").value, "code")) in {Some(-32600), Some(-32700)}
    && AsStr(Get(Get(v, "error").value, "message")).Some?
  }

  predicate StartsWith(s: string, prefix: string) { |prefix| <= |s| && s[..|prefix|] == prefix }

  function OnToolFrame(c: State, id: nat, served: nat, limit: nat, allowRejection: bool, frame: Option<Value>,
                       fate: nat -> Fate): Step<ToolResponse> {
    if frame.None? || !frame.value.Obj? then Absorbed(c, served)
    else
      var v := frame.value;
      if IsResponse(v) then
        if IsAbandonedReply(c, v) then Absorbed(Forget(c, v), served)
        else if IdOf(v) != Some(id) && !(allowRejection && IsFrameRejection(v)) then Over(c, Failed(IdMismatch))
        else Over(c, Classify(v))
      else if MethodOf(v).None? || StartsWith(MethodOf(v).value, "notifications/") || !Has(v, "id") then
        Absorbed(c, served)
      else if served + 1 > limit then Over(c, Failed(TooManyRequests))
      else
        var (d, written) := Write(c, fate(served + 1));
        if written then Absorbed(d, served + 1) else Over(d, Failed(NotWritten))
  }

  function AwaitTool(c: State, id: nat, served: nat, limit: nat, allowRejection: bool, incoming: seq<Incoming>,
                     fate: nat -> Fate): Ended<ToolResponse>
    decreases |incoming|
  {
    if incoming == [] then Ended(Abandon(c, id), Failed(TimedOut), 0)
    else match incoming[0]
      case Timeout => Ended(Abandon(c, id), Failed(TimedOut), 1)
      case Closed => Ended(c, Failed(TransportClosed), 1)
      case Line(frame, _) =>
        match OnToolFrame(c, id, served, limit, allowRejection, frame, fate)
        case Over(d, result) => Ended(d, result, 1)
        case Absorbed(d, s) =>
          Later(AwaitTool(d, id, s, limit, allowRejection, incoming[1..], fate), 1)
  }

  function CallTool(c: State, limit: nat, allowRejection: bool, incoming: seq<Incoming>, fate: nat -> Fate):
    Ended<ToolResponse>
  {
    var (d, written) := Write(c.(nextId := c.nextId + 1), fate(0));
    if !written then Ended(d, Failed(NotWritten), 0)
    else AwaitTool(d, c.nextId, 0, limit, allowRejection, incoming, fate)
  }

  // ------------------------------------------------------------- cancellation

  function Resolution(v: Value): Result<Cancellation> {
    if !IsTwo(v) || !OneResult(v) then Failed(InvalidCancellation)
    else if Has(v, "error") then
      Done(if AsI64(Get(Get(v, "error").value, "code")) == Some(CANCELLED) then Honored else Errored)
    else match Classify(v)
      case Failed(why) => Failed(why)
      case Done(Success(_)) => Done(Ignored)
      case Done(ToolError(_, _)) => Done(Errored)
  }

  function AwaitCancelled(c: State, id: nat, incoming: seq<Incoming>): Ended<Cancellation>
    decreases |incoming|
  {
    if incoming == [] then Ended(Abandon(c, id), Done(Honored), 0)
    else match incoming[0]
      case Timeout => Ended(Abandon(c, id), Done(Honored), 1)
      case Closed => Ended(c, Failed(TransportClosed), 1)
      case Line(frame, _) =>
        if frame.Some? && IdOf(frame.value) == Some(id) then Ended(c, Resolution(frame.value), 1)
        else Later(AwaitCancelled(c, id, incoming[1..]), 1)
  }

  function CancelCall(c: State, incoming: seq<Incoming>, fate: nat -> Fate): Ended<Cancellation> {
    var (d, called) := Write(c.(nextId := c.nextId + 1), fate(0));
    if !called then Ended(d, Failed(NotWritten), 0)
    else
      var (e, cancelled) := Write(d, fate(1));
      if !cancelled then Ended(e, Failed(NotWritten), 0) else AwaitCancelled(e, c.nextId, incoming)
  }

  // ------------------------------------------------------------ notifications

  function FirstUpdate(notifications: seq<Notification>, uri: string): (i: nat)
    ensures i <= |notifications|
    ensures i < |notifications| ==> IsUpdate(notifications[i].frame, uri)
    ensures forall j :: 0 <= j < i ==> !IsUpdate(notifications[j].frame, uri)
  {
    if notifications == [] || IsUpdate(notifications[0].frame, uri) then 0
    else 1 + FirstUpdate(notifications[1..], uri)
  }

  /** One frame of a wait for an update: whether it ends the wait, and how. */
  function OnUpdateFrame(c: State, uri: string, next: Incoming): (State, Option<bool>) {
    if !next.Line? then (c, Some(false))
    else if next.frame.None? then (c, None)
    else if IsUpdate(next.frame.value, uri) then (c, Some(true))
    else if MethodOf(next.frame.value).None? then (c, None)
    else
      var (d, kept) := Remember(c, next.frame.value, next.bytes);
      (d, if kept then None else Some(false))
  }

  function AwaitUpdate(c: State, uri: string, incoming: seq<Incoming>): (State, bool, nat)
    decreases |incoming|
  {
    if incoming == [] then (c, false, 0)
    else
      var (d, over) := OnUpdateFrame(c, uri, incoming[0]);
      if over.Some? then (d, over.value, 1) else LaterUpdate(AwaitUpdate(d, uri, incoming[1..]), 1)
  }

  function LaterUpdate(e: (State, bool, nat), read: nat): (State, bool, nat) { (e.0, e.1, e.2 + read) }

  /** The buffer without its `i`-th notification. */
  function Removed(c: State, i: nat): State
    requires i < |c.notifications| && Bytes(c.notifications) <= c.notificationBytes
  {
    BytesAt(c.notifications, i);
    c.(notifications := c.notifications[..i] + c.notifications[i + 1..],
       notificationBytes := c.notificationBytes - c.notifications[i].bytes)
  }

  function WaitForUpdate(c: State, uri: string, incoming: seq<Incoming>): (State, bool, nat)
    requires Bytes(c.notifications) <= c.notificationBytes
  {
    var i := FirstUpdate(c.notifications, uri);
    if i < |c.notifications| then (Removed(c, i), true, 0) else AwaitUpdate(c, uri, incoming)
  }

  function Bytes(notifications: seq<Notification>): nat {
    if notifications == [] then 0
    else Bytes(notifications[..|notifications| - 1]) + notifications[|notifications| - 1].bytes
  }

  lemma {:induction false} BytesAt(ns: seq<Notification>, i: nat)
    requires i < |ns|
    ensures Bytes(ns[..i] + ns[i + 1..]) == Bytes(ns) - ns[i].bytes
  {
    var n := |ns| - 1;
    if i == n {
      assert ns[..i] + ns[i + 1..] == ns[..n];
    } else {
      BytesAt(ns[..n], i);
      var rest := ns[..i] + ns[i + 1..];
      assert rest[..|rest| - 1] == ns[..n][..i] + ns[..n][i + 1..];
      assert rest[|rest| - 1] == ns[n];
    }
  }

  // --------------------------------------------------------------- the client

  class McpClient {
    var nextId: nat
    var abandoned: set<nat>
    var notifications: seq<Notification>
    var notificationBytes: nat
    var failed: bool
    var emptyRoots: bool

    function View(): State
      reads this
    {
      State(nextId, abandoned, notifications, notificationBytes, failed, emptyRoots)
    }

    ghost predicate Valid()
      reads this
    {
      Sound(View())
    }

    constructor ()
      ensures View() == START && Valid()
    {
      nextId, abandoned, notifications, notificationBytes := 1, {}, [], 0;
      failed, emptyRoots := false, false;
    }

    method WriteFrame(fate: Fate) returns (written: bool)
      modifies this`failed
      ensures (View(), written) == Write(old(View()), fate)
    {
      if failed || fate == Declined {
        return false;
      }
      if fate == Broken {
        failed := true;
        return false;
      }
      written := true;
    }

    method ForgetReply(v: Value) returns (late: bool)
      modifies this`abandoned
      ensures late == IsAbandonedReply(old(View()), v)
      ensures View() == if late then Forget(old(View()), v) else old(View())
    {
      var id := IdOf(v);
      if id.None? || id.value !in abandoned {
        return false;
      }
      abandoned := abandoned - {id.value};
      late := true;
    }

    method RememberNotification(v: Value, bytes: nat) returns (kept: bool)
      requires Valid()
      modifies this`notifications, this`notificationBytes, this`failed
      ensures (View(), kept) == Remember(old(View()), v, bytes)
      ensures Valid()
    {
      if |notifications| >= MAX_NOTIFICATIONS || bytes > MAX_FRAME_BYTES - notificationBytes {
        failed := true;
        return false;
      }
      RememberSound(View(), v, bytes);
      notificationBytes := notificationBytes + bytes;
      notifications := notifications + [Notification(v, bytes)];
      kept := true;
    }

    /** One frame of a request's wait; `over` ends it. */
    method TakeFrame(id: nat, served: nat, frame: Option<Value>, bytes: nat, fate: nat -> Fate)
      returns (over: Option<Result<Value>>, served': nat)
      requires Valid()
      modifies this
      ensures OnFrame(old(View()), id, served, frame, bytes, fate)
           == if over.Some? then Over(View(), over.value) else Absorbed(View(), served')
      ensures Valid()
    {
      OnFrameSound(View(), id, served, frame, bytes, fate);
      served' := served;
      if frame.None? || !frame.value.Obj? || !IsTwo(frame.value) {
        return None, served;
      }
      var v := frame.value;
      if !Has(v, "id") {
        if MethodOf(v).Some? {
          var kept := RememberNotification(v, bytes);
          if !kept {
            return Some(Failed(BufferFull)), served;
          }
        }
        return None, served;
      }
      if emptyRoots && MethodOf(v) == Some("roots/list") {
        if served + 1 > MAX_SERVER_REQUESTS {
          return Some(Failed(RootsLimit)), served;
        }
        var written := WriteFrame(fate(served + 1));
        return if written then None else Some(Failed(NotWritten)), served + 1;
      }
      var late := ForgetReply(v);
      if late {
        return None, served;
      }
      if IdOf(v) != Some(id) {
        return Some(Failed(IdMismatch)), served;
      }
      if Has(v, "result") == Has(v, "error") {
        return Some(Failed(NotOneResult)), served;
      }
      over := Some(Done(v));
    }

    method SendRequest(incoming: seq<Incoming>, fate: nat -> Fate) returns (result: Result<Value>, read: nat)
      requires Valid()
      modifies this
      ensures Ended(View(), result, read) == Request(old(View()), incoming, fate)
      ensures Valid()
    {
      RequestSound(View(), incoming, fate);
      var id := nextId;
      nextId := nextId + 1;
      var written := WriteFrame(fate(0));
      if !written {
        return Failed(NotWritten), 0;
      }
      result, read := AwaitReply(id, incoming, fate);
    }

    method AwaitReply(id: nat, incoming: seq<Incoming>, fate: nat -> Fate) returns (result: Result<Value>, read: nat)
      requires Valid() && id < nextId
      modifies this
      ensures Ended(View(), result, read) == Await(old(View()), id, 0, incoming, fate)
      ensures Valid()
    {
      AwaitSound(View(), id, 0, incoming, fate);
      ghost var start := View();
      var served: nat := 0;
      read := 0;
      while read < |incoming|
        invariant read <= |incoming| && Valid()
        invariant Await(start, id, 0, incoming, fate) == Later(Await(View(), id, served, incoming[read..], fate), read)
      {
        var next := incoming[read];
        assert incoming[read..][1..] == incoming[read + 1..];
        read := read + 1;
        match next {
          case Timeout =>
            abandoned := abandoned + {id};
            return Failed(TimedOut), read;
          case Closed =>
            return Failed(TransportClosed), read;
          case Line(frame, bytes) =>
            var over;
            over, served := TakeFrame(id, served, frame, bytes, fate);
            if over.Some? {
              return over.value, read;
            }
        }
      }
      abandoned := abandoned + {id};
      result := Failed(TimedOut);
    }

    /** One frame of an observed tool call's wait. */
    method TakeToolFrame(id: nat, served: nat, limit: nat, allowRejection: bool, frame: Option<Value>,
                         fate: nat -> Fate)
      returns (over: Option<Result<ToolResponse>>, served': nat)
      requires Valid()
      modifies this
      ensures OnToolFrame(old(View()), id, served, limit, allowRejection, frame, fate)
           == if over.Some? then Over(View(), over.value) else Absorbed(View(), served')
      ensures Valid()
    {
      served' := served;
      if frame.None? || !frame.value.Obj? {
        return None, served;
      }
      var v := frame.value;
      if Has(v, "id") && (Has(v, "result") || Has(v, "error")) {
        var late := ForgetReply(v);
        if late {
          return None, served;
        }
        if IdOf(v) != Some(id) && !(allowRejection && IsFrameRejection(v)) {
          return Some(Failed(IdMismatch)), served;
        }
        return Some(Classify(v)), served;
      }
      if MethodOf(v).None? || StartsWith(MethodOf(v).value, "notifications/") || !Has(v, "id") {
        return None, served;
      }
      if served + 1 > limit {
        return Some(Failed(TooManyRequests)), served;
      }
      var written := WriteFrame(fate(served + 1));
      return if written then None else Some(Failed(NotWritten)), served + 1;
    }

    method ObserveToolCall(limit: nat, allowRejection: bool, incoming: seq<Incoming>, fate: nat -> Fate)
      returns (result: Result<ToolResponse>, read: nat)
      requires Valid()
      modifies this
      ensures Ended(View(), result, read) == CallTool(old(View()), limit, allowRejection, incoming, fate)
      ensures Valid()
    {
      var id := nextId;
      nextId := nextId + 1;
      var written := WriteFrame(fate(0));
      if !written {
        return Failed(NotWritten), 0;
      }
      result, read := AwaitToolReply(id, limit, allowRejection, incoming, fate);
    }

    method AwaitToolReply(id: nat, limit: nat, allowRejection: bool, incoming: seq<Incoming>, fate: nat -> Fate)
      returns (result: Result<ToolResponse>, read: nat)
      requires Valid() && id < nextId
      modifies this
      ensures Ended(View(), result, read) == AwaitTool(old(View()), id, 0, limit, allowRejection, incoming, fate)
      ensures Valid()
    {
      ghost var start := View();
      var served: nat := 0;
      read := 0;
      while read < |incoming|
        invariant read <= |incoming| && Valid() && id < nextId
        invariant AwaitTool(start, id, 0, limit, allowRejection, incoming, fate)
               == Later(AwaitTool(View(), id, served, limit, allowRejection, incoming[read..], fate), read)
      {
        var next := incoming[read];
        assert incoming[read..][1..] == incoming[read + 1..];
        read := read + 1;
        match next {
          case Timeout =>
            abandoned := abandoned + {id};
            return Failed(TimedOut), read;
          case Closed =>
            return Failed(TransportClosed), read;
          case Line(frame, _) =>
            var over;
            over, served := TakeToolFrame(id, served, limit, allowRejection, frame, fate);
            if over.Some? {
              return over.value, read;
            }
        }
      }
      abandoned := abandoned + {id};
      result := Failed(TimedOut);
    }

    method CancelToolCall(incoming: seq<Incoming>, fate: nat -> Fate) returns (result: Result<Cancellation>, read: nat)
      requires Valid()
      modifies this
      ensures Ended(View(), result, read) == CancelCall(old(View()), incoming, fate)
      ensures Valid()
    {
      var id := nextId;
      nextId := nextId + 1;
      var written := WriteFrame(fate(0));
      if !written {
        return Failed(NotWritten), 0;
      }
      written := WriteFrame(fate(1));
      if !written {
        return Failed(NotWritten), 0;
      }
      read := 0;
      ghost var start := View();
      while read < |incoming|
        invariant read <= |incoming| && View() == start
        invariant AwaitCancelled(start, id, incoming) == Later(AwaitCancelled(start, id, incoming[read..]), read)
      {
        var next := incoming[read];
        assert incoming[read..][1..] == incoming[read + 1..];
        read := read + 1;
        match next {
          case Timeout =>
            abandoned := abandoned + {id};
            return Done(Honored), read;
          case Closed =>
            return Failed(TransportClosed), read;
          case Line(frame, _) =>
            if frame.Some? && IdOf(frame.value) == Some(id) {
              return Resolution(frame.value), read;
            }
        }
      }
      abandoned := abandoned + {id};
      result := Done(Honored);
    }

    /** The byte count cannot run under. */
    method RemoveNotification(i: nat)
      requires Valid() && i < |notifications|
      modifies this`notifications, this`notificationBytes
      ensures View() == Removed(old(View()), i)
      ensures Valid()
    {
      RemovedSound(View(), i);
      notificationBytes := notificationBytes - notifications[i].bytes;
      notifications := notifications[..i] + notifications[i + 1..];
    }

    method TakeUpdateFrame(uri: string, next: Incoming) returns (over: Option<bool>)
      requires Valid()
      modifies this
      ensures (View(), over) == OnUpdateFrame(old(View()), uri, next)
      ensures Valid()
    {
      if !next.Line? {
        return Some(false);
      }
      if next.frame.None? {
        return None;
      }
      if IsUpdate(next.frame.value, uri) {
        return Some(true);
      }
      if MethodOf(next.frame.value).Some? {
        var kept := RememberNotification(next.frame.value, next.bytes);
        if !kept {
          return Some(false);
        }
      }
      over := None;
    }

    /** Drains the buffer before it reads on. */
    method WaitForResourceUpdate(uri: string, incoming: seq<Incoming>) returns (seen: bool, read: nat)
      requires Valid()
      modifies this
      ensures (View(), seen, read) == WaitForUpdate(old(View()), uri, incoming)
      ensures Valid()
    {
      var i := FirstUpdate(notifications, uri);
      if i < |notifications| {
        RemoveNotification(i);
        return true, 0;
      }
      seen, read := AwaitResourceUpdate(uri, incoming);
    }

    method AwaitResourceUpdate(uri: string, incoming: seq<Incoming>) returns (seen: bool, read: nat)
      requires Valid()
      modifies this
      ensures (View(), seen, read) == AwaitUpdate(old(View()), uri, incoming)
      ensures Valid()
    {
      ghost var start := View();
      read := 0;
      while read < |incoming|
        invariant read <= |incoming| && Valid()
        invariant AwaitUpdate(start, uri, incoming) == LaterUpdate(AwaitUpdate(View(), uri, incoming[read..]), read)
      {
        assert incoming[read..][0] == incoming[read] && incoming[read..][1..] == incoming[read + 1..];
        var over := TakeUpdateFrame(uri, incoming[read]);
        read := read + 1;
        if over.Some? {
          return over.value, read;
        }
      }
      seen := false;
    }
  }

  // ------------------------------------------------------- the session invariant

  /** Given-up ids are older than any still to be issued, and the buffer is
      bounded and counts its own bytes. */
  ghost predicate Sound(c: State) {
    && (forall a :: a in c.abandoned ==> a < c.nextId)
    && |c.notifications| <= 128
    && c.notificationBytes == Bytes(c.notifications) <= 4_194_304
  }

  lemma {:induction false} RememberSound(c: State, v: Value, bytes: nat)
    requires Sound(c)
    ensures Sound(Remember(c, v, bytes).0)
  {
    var after := c.notifications + [Notification(v, bytes)];
    assert after[..|after| - 1] == c.notifications;
  }

  lemma {:induction false} RemovedSound(c: State, i: nat)
    requires Sound(c) && i < |c.notifications|
    ensures Sound(Removed(c, i))
  {
    BytesAt(c.notifications, i);
  }

  lemma {:induction false} OnFrameSound(c: State, id: nat, served: nat, frame: Option<Value>, bytes: nat,
                                        fate: nat -> Fate)
    requires Sound(c)
    ensures Sound(OnFrame(c, id, served, frame, bytes, fate).client)
    ensures OnFrame(c, id, served, frame, bytes, fate).client.nextId == c.nextId
  {
    if frame.Some? {
      RememberSound(c, frame.value, bytes);
    }
  }

  lemma {:induction false} AwaitSound(c: State, id: nat, served: nat, incoming: seq<Incoming>, fate: nat -> Fate)
    requires Sound(c) && id < c.nextId
    ensures Sound(Await(c, id, served, incoming, fate).client)
    ensures Await(c, id, served, incoming, fate).client.nextId == c.nextId
    decreases |incoming|
  {
    if incoming != [] && incoming[0].Line? {
      OnFrameSound(c, id, served, incoming[0].frame, incoming[0].bytes, fate);
      match OnFrame(c, id, served, incoming[0].frame, incoming[0].bytes, fate)
      case Over(_, _) =>
      case Absorbed(d, s) => AwaitSound(d, id, s, incoming[1..], fate);
    }
  }

  lemma {:induction false} RequestSound(c: State, incoming: seq<Incoming>, fate: nat -> Fate)
    requires Sound(c)
    ensures Sound(Request(c, incoming, fate).client) && Request(c, incoming, fate).client.nextId == c.nextId + 1
  {
    var (d, written) := Write(c.(nextId := c.nextId + 1), fate(0));
    if written {
      AwaitSound(d, c.nextId, 0, incoming, fate);
    }
  }
}
