/** What the client promises over whole waits and whole sessions. */
module ClientLaws {
  import opened Common
  import opened Json
  import opened Client

  // ------------------------------------------------------------- whole sessions

  datatype Op =
    | RequestOp(incoming: seq<Incoming>, fate: nat -> Fate)
    | ToolOp(limit: nat, allowRejection: bool, incoming: seq<Incoming>, fate: nat -> Fate)
    | CancelOp(incoming: seq<Incoming>, fate: nat -> Fate)
    | WaitOp(uri: string, incoming: seq<Incoming>)

  function Perform(c: State, op: Op): (State, Option<Value>)
    requires Sound(c)
  {
    match op
    case RequestOp(incoming, fate) =>
      var e := Request(c, incoming, fate);
      (e.client, if e.result.Done? then Some(e.result.value) else None)
    case ToolOp(limit, allowRejection, incoming, fate) =>
      (CallTool(c, limit, allowRejection, incoming, fate).client, None)
    case CancelOp(incoming, fate) => (CancelCall(c, incoming, fate).client, None)
    case WaitOp(uri, incoming) => (WaitForUpdate(c, uri, incoming).0, None)
  }

  lemma {:induction false} OnToolFrameKeeps(c: State, id: nat, served: nat, limit: nat, allowRejection: bool,
                                            frame: Option<Value>,
                         fate: nat -> Fate)
    ensures
      var d := OnToolFrame(c, id, served, limit, allowRejection, frame, fate).client;
      d == c.(abandoned := d.abandoned, failed := d.failed) && d.abandoned <= c.abandoned
  {
  }

  lemma {:induction false} AwaitToolKeeps(c: State, id: nat, served: nat, limit: nat, allowRejection: bool,
                                          incoming: seq<Incoming>, fate: nat -> Fate)
    ensures
      var d := AwaitTool(c, id, served, limit, allowRejection, incoming, fate).client;
      d == c.(abandoned := d.abandoned, failed := d.failed) && d.abandoned <= c.abandoned + {id}
    decreases |incoming|
  {
    if incoming != [] && incoming[0].Line? {
      OnToolFrameKeeps(c, id, served, limit, allowRejection, incoming[0].frame, fate);
      match OnToolFrame(c, id, served, limit, allowRejection, incoming[0].frame, fate)
      case Over(_, _) =>
      case Absorbed(d, s) => AwaitToolKeeps(d, id, s, limit, allowRejection, incoming[1..], fate);
    }
  }

  lemma {:induction false} AwaitCancelledKeeps(c: State, id: nat, incoming: seq<Incoming>)
    ensures
      var d := AwaitCancelled(c, id, incoming).client;
      d == c || d == Abandon(c, id)
    decreases |incoming|
  {
    if incoming != [] && incoming[0].Line? {
      AwaitCancelledKeeps(c, id, incoming[1..]);
    }
  }

  lemma {:induction false} AwaitUpdateSound(c: State, uri: string, incoming: seq<Incoming>)
    requires Sound(c)
    ensures Sound(AwaitUpdate(c, uri, incoming).0) && AwaitUpdate(c, uri, incoming).0.nextId == c.nextId
    decreases |incoming|
  {
    if incoming != [] {
      if incoming[0].Line? && incoming[0].frame.Some? {
        RememberSound(c, incoming[0].frame.value, incoming[0].bytes);
      }
      AwaitUpdateSound(OnUpdateFrame(c, uri, incoming[0]).0, uri, incoming[1..]);
    }
  }

  ghost predicate Issues(c: State, d: State, ids: nat) { Sound(d) && d.nextId == c.nextId + ids }

  lemma {:induction false} ToolSound(c: State, limit: nat, allowRejection: bool, incoming: seq<Incoming>,
                                     fate: nat -> Fate)
    requires Sound(c)
    ensures Issues(c, CallTool(c, limit, allowRejection, incoming, fate).client, 1)
  {
    var d := Write(c.(nextId := c.nextId + 1), fate(0)).0;
    AwaitToolKeeps(d, c.nextId, 0, limit, allowRejection, incoming, fate);
  }

  lemma {:induction false} CancelSound(c: State, incoming: seq<Incoming>, fate: nat -> Fate)
    requires Sound(c)
    ensures Issues(c, CancelCall(c, incoming, fate).client, 1)
  {
    var d := Write(Write(c.(nextId := c.nextId + 1), fate(0)).0, fate(1)).0;
    AwaitCancelledKeeps(d, c.nextId, incoming);
  }

  lemma {:induction false} WaitSound(c: State, uri: string, incoming: seq<Incoming>)
    requires Sound(c)
    ensures Issues(c, WaitForUpdate(c, uri, incoming).0, 0)
  {
    var i := FirstUpdate(c.notifications, uri);
    if i < |c.notifications| {
      RemovedSound(c, i);
    } else {
      AwaitUpdateSound(c, uri, incoming);
    }
  }

  /** Every operation keeps the client sound, and all but a wait issue one id. */
  lemma {:induction false} PerformSound(c: State, op: Op)
    requires Sound(c)
    ensures Issues(c, Perform(c, op).0, if op.WaitOp? then 0 else 1)
  {
    match op
    case RequestOp(incoming, fate) => RequestSound(c, incoming, fate);
    case ToolOp(limit, allowRejection, incoming, fate) => ToolSound(c, limit, allowRejection, incoming, fate);
    case CancelOp(incoming, fate) => CancelSound(c, incoming, fate);
    case WaitOp(uri, incoming) => WaitSound(c, uri, incoming);
  }

  ghost predicate Follows(states: seq<State>, ops: seq<Op>) {
    && |states| == |ops| + 1 && states[0] == START
    && (forall i :: 0 <= i < |states| ==> Sound(states[i]))
    && forall i :: 0 <= i < |ops| ==> states[i + 1] == Perform(states[i], ops[i]).0
  }

  /** Any script of operations runs with every state sound. */
  lemma {:induction false} SessionRuns(ops: seq<Op>) returns (states: seq<State>)
    ensures Follows(states, ops)
  {
    if ops == [] {
      states := [START];
    } else {
      var n := |ops| - 1;
      var front := SessionRuns(ops[..n]);
      PerformSound(front[n], ops[n]);
      states := front + [Perform(front[n], ops[n]).0];
      assert forall i :: 0 <= i < n ==> ops[..n][i] == ops[i];
    }
  }

  lemma {:induction false} IdsGrow(states: seq<State>, ops: seq<Op>, i: nat, j: nat)
    requires Follows(states, ops) && i <= j < |states|
    ensures states[i].nextId <= states[j].nextId
    decreases j
  {
    if i < j {
      IdsGrow(states, ops, i, j - 1);
      PerformSound(states[j - 1], ops[j - 1]);
    }
  }

  /** Two requests of a session never return the same reply, and the later one
      returns the larger id. */
  lemma {:induction false} RepliesAreNotShared(states: seq<State>, ops: seq<Op>, i: nat, j: nat)
    requires Follows(states, ops) && i < j < |ops|
    requires Perform(states[i], ops[i]).1.Some? && Perform(states[j], ops[j]).1.Some?
    ensures
      var a, b := IdOf(Perform(states[i], ops[i]).1.value), IdOf(Perform(states[j], ops[j]).1.value);
      a.Some? && b.Some? && a.value < b.value
  {
    ReplyAnswers(states[i], ops[i].incoming, ops[i].fate);
    ReplyAnswers(states[j], ops[j].incoming, ops[j].fate);
    PerformSound(states[i], ops[i]);
    IdsGrow(states, ops, i + 1, j);
  }

  // ------------------------------------------------------------ one reply only

  lemma {:induction false} AwaitAnswers(c: State, id: nat, served: nat, incoming: seq<Incoming>, fate: nat -> Fate)
    requires Await(c, id, served, incoming, fate).result.Done?
    ensures
      var e := Await(c, id, served, incoming, fate);
      && 0 < e.read <= |incoming|
      && incoming[e.read - 1].Line? && incoming[e.read - 1].frame == Some(e.result.value)
      && IdOf(e.result.value) == Some(id) && IsTwo(e.result.value) && OneResult(e.result.value)
    decreases |incoming|
  {
    match OnFrame(c, id, served, incoming[0].frame, incoming[0].bytes, fate)
    case Over(_, _) =>
    case Absorbed(d, s) => AwaitAnswers(d, id, s, incoming[1..], fate);
  }

  /** What a request returns is the last frame read: a JSON-RPC 2.0 reply under
      the outstanding id, with exactly one of result and error. */
  lemma {:induction false} ReplyAnswers(c: State, incoming: seq<Incoming>, fate: nat -> Fate)
    requires Request(c, incoming, fate).result.Done?
    ensures
      var e := Request(c, incoming, fate);
      && 0 < e.read <= |incoming|
      && incoming[e.read - 1].Line? && incoming[e.read - 1].frame == Some(e.result.value)
      && IdOf(e.result.value) == Some(c.nextId) && IsTwo(e.result.value) && OneResult(e.result.value)
  {
    AwaitAnswers(Write(c.(nextId := c.nextId + 1), fate(0)).0, c.nextId, 0, incoming, fate);
  }

  // -------------------------------------------------- the two waits side by side

  /** Under the outstanding id, an observed call takes its verdict from any
      response; a request takes it only from a 2.0 envelope with one of result
      and error. */
  lemma {:induction false} ObservedCallChecksLess(c: State, id: nat, limit: nat, allowRejection: bool, v: Value,
                                                  bytes: nat,
                               fate: nat -> Fate)
    requires v.Obj? && IdOf(v) == Some(id) && IsResponse(v) && id !in c.abandoned
    requires !(c.emptyRoots && MethodOf(v) == Some("roots/list"))
    ensures AwaitTool(c, id, 0, limit, allowRejection, [Line(Some(v), bytes)], fate).result == Classify(v)
    ensures Await(c, id, 0, [Line(Some(v), bytes)], fate).result == Done(v) <==> IsTwo(v) && OneResult(v)
  {
    var all := [Line(Some(v), bytes)];
    assert all[1..] == [];
  }

  /** With both present, the error goes unseen. */
  lemma {:induction false} ErrorBesideAResultIsUnseen(id: Value, error: Value, result: Value)
    requires result.Obj? && Get(result, "isError").None?
    ensures Classify(Obj([Field("id", id), Field("error", error), Field("result", result)])) == Done(Success(result))
  {
    var fields := [Field("id", id), Field("error", error), Field("result", result)];
    assert fields[1..] == [Field("error", error), Field("result", result)];
    assert fields[1..][1..] == [Field("result", result)];
    assert |"id"| == 2 && |"error"| == 5 && |"result"| == 6;
    assert Lookup(fields[1..][1..], "result") == Some(result);
    assert Lookup(fields[1..], "result") == Some(result);
  }
}
