/** What every operation of the client does to its notification buffer, and when
    an update is there for the wait that comes after. */
module ClientBuffer {
  import opened Common
  import opened Json
  import opened Client
  import opened ClientLaws

  predicate IsEnvelope(frame: Option<Value>) { frame.Some? && frame.value.Obj? && IsTwo(frame.value) }

  /** A notification as a request takes it. */
  predicate IsNote(i: Incoming) {
    i.Line? && IsEnvelope(i.frame) && !Has(i.frame.value, "id") && MethodOf(i.frame.value).Some?
  }

  /** Whoever buffers what it reads: a request, or a wait for updates of `uri`. */
  datatype Listener = Requesting | Waiting(uri: string)

  /** A wait buffers any frame with a method but the update it waits for. */
  predicate Takes(who: Listener, i: Incoming)
    ensures Takes(who, i) ==> i.Line? && i.frame.Some?
  {
    match who
    case Requesting => IsNote(i)
    case Waiting(uri) =>
      i.Line? && i.frame.Some? && !IsUpdate(i.frame.value, uri) && MethodOf(i.frame.value).Some?
  }

  function NoteOf(i: Incoming): Notification
    requires i.Line? && i.frame.Some?
  {
    Notification(i.frame.value, i.bytes)
  }

  function NotesIn(who: Listener, incoming: seq<Incoming>): seq<Notification> {
    if incoming == [] then []
    else (if Takes(who, incoming[0]) then [NoteOf(incoming[0])] else [])
         + NotesIn(who, incoming[1..])
  }

  ghost predicate Roomy(c: State, notes: seq<Notification>) {
    |c.notifications| + |notes| <= MAX_NOTIFICATIONS && c.notificationBytes + Bytes(notes) <= MAX_FRAME_BYTES
  }

  lemma {:induction false} BytesCons(n: Notification, notes: seq<Notification>)
    ensures Bytes([n] + notes) == n.bytes + Bytes(notes)
  {
    if notes == [] {
      assert [n] + notes == [n] && [n][..0] == [];
    } else {
      BytesCons(n, notes[..|notes| - 1]);
      assert ([n] + notes)[..|notes|] == [n] + notes[..|notes| - 1];
    }
  }

  /** What is buffered of the first `read` frames: of frames that end in one that
      does not fit, all but that one. */
  ghost function Kept(who: Listener, c: State, incoming: seq<Incoming>, read: nat): nat
    requires read <= |incoming|
  {
    if read > 0 && !Roomy(c, NotesIn(who, incoming[..read])) then read - 1 else read
  }

  /** The client `d` after it read `read` frames, as far as its buffer goes. */
  ghost predicate Buffers(who: Listener, c: State, incoming: seq<Incoming>, d: State, read: nat) {
    && read <= |incoming|
    && Roomy(c, NotesIn(who, incoming[..Kept(who, c, incoming, read)]))
    && d.notifications == c.notifications + NotesIn(who, incoming[..Kept(who, c, incoming, read)])
  }

  /** The client after a frame that was absorbed, as far as its buffer goes. */
  ghost predicate Took(who: Listener, c: State, i: Incoming, d: State) {
    if Takes(who, i) then
      && Fits(c, i.bytes)
      && d.notifications == c.notifications + [NoteOf(i)]
      && d.notificationBytes == c.notificationBytes + i.bytes
    else d.notifications == c.notifications && d.notificationBytes == c.notificationBytes
  }

  lemma {:induction false} NotesCons(who: Listener, i: Incoming, rest: seq<Incoming>)
    ensures NotesIn(who, [i] + rest) == if Takes(who, i) then [NoteOf(i)] + NotesIn(who, rest) else NotesIn(who, rest)
  {
    var all := [i] + rest;
    assert all[0] == i && all[1..] == rest;
  }

  lemma {:induction false} RoomyCons(c: State, d: State, n: Notification, notes: seq<Notification>)
    requires d.notifications == c.notifications + [n] && d.notificationBytes == c.notificationBytes + n.bytes
    ensures Roomy(d, notes) <==> Roomy(c, [n] + notes)
    ensures d.notifications + notes == c.notifications + ([n] + notes)
  {
    BytesCons(n, notes);
  }

  lemma {:induction false} RoomyNext(who: Listener, c: State, d: State, i: Incoming, rest: seq<Incoming>)
    requires Took(who, c, i, d)
    ensures Roomy(d, NotesIn(who, rest)) <==> Roomy(c, NotesIn(who, [i] + rest))
    ensures d.notifications + NotesIn(who, rest) == c.notifications + NotesIn(who, [i] + rest)
  {
    NotesCons(who, i, rest);
    if Takes(who, i) {
      RoomyCons(c, d, NoteOf(i), NotesIn(who, rest));
    }
  }

  lemma {:induction false} BuffersNext(who: Listener, c: State, d: State, incoming: seq<Incoming>, e: State, read: nat)
    requires incoming != [] && Took(who, c, incoming[0], d)
    requires |d.notifications| <= MAX_NOTIFICATIONS && d.notificationBytes <= MAX_FRAME_BYTES
    requires Buffers(who, d, incoming[1..], e, read)
    ensures Buffers(who, c, incoming, e, read + 1)
  {
    var rest := incoming[1..];
    forall k | 0 <= k <= read ensures incoming[..k + 1] == [incoming[0]] + rest[..k] {
    }
    RoomyNext(who, c, d, incoming[0], rest[..read]);
    RoomyNext(who, c, d, incoming[0], rest[..Kept(who, d, rest, read)]);
    if read == 0 {
      assert rest[..0] == [];
    }
  }

  /** One frame that ends the wait leaves the buffer as it is. */
  lemma {:induction false} BuffersLast(who: Listener, c: State, incoming: seq<Incoming>, d: State)
    requires Sound(c) && incoming != [] && d.notifications == c.notifications
    requires Takes(who, incoming[0]) ==> !Fits(c, incoming[0].bytes)
    ensures Buffers(who, c, incoming, d, 1)
  {
    assert incoming[..1][1..] == [] && incoming[..0] == [];
    if Takes(who, incoming[0]) {
      var n := NoteOf(incoming[0]);
      BytesCons(n, []);
      assert NotesIn(who, incoming[..1]) == [n] + [];
    }
  }

  lemma {:induction false} BuffersNothing(who: Listener, c: State, incoming: seq<Incoming>, d: State)
    requires Sound(c) && d.notifications == c.notifications
    ensures Buffers(who, c, incoming, d, 0)
  {
    assert incoming[..0] == [];
  }

  lemma {:induction false} StepTook(c: State, id: nat, served: nat, i: Incoming, fate: nat -> Fate)
    requires i.Line?
    ensures
      var step := OnFrame(c, id, served, i.frame, i.bytes, fate);
      if step.Absorbed? then Took(Requesting, c, i, step.client)
      else step.client.notifications == c.notifications && (Takes(Requesting, i) ==> !Fits(c, i.bytes))
  {
  }

  lemma {:induction false} AwaitBuffers(c: State, id: nat, served: nat, incoming: seq<Incoming>, fate: nat -> Fate)
    requires Sound(c)
    ensures
      var e := Await(c, id, served, incoming, fate);
      Buffers(Requesting, c, incoming, e.client, e.read)
    decreases |incoming|
  {
    if incoming == [] {
      BuffersNothing(Requesting, c, incoming, Abandon(c, id));
    } else if incoming[0].Line? {
      StepTook(c, id, served, incoming[0], fate);
      match OnFrame(c, id, served, incoming[0].frame, incoming[0].bytes, fate)
      case Over(d, _) => BuffersLast(Requesting, c, incoming, d);
      case Absorbed(d, s) =>
        OnFrameSound(c, id, served, incoming[0].frame, incoming[0].bytes, fate);
        AwaitBuffers(d, id, s, incoming[1..], fate);
        var e := Await(d, id, s, incoming[1..], fate);
        BuffersNext(Requesting, c, d, incoming, e.client, e.read);
    } else {
      BuffersLast(Requesting, c, incoming, Await(c, id, served, incoming, fate).client);
    }
  }

  lemma {:induction false} UpdateStepTook(c: State, uri: string, i: Incoming)
    requires Sound(c)
    ensures
      var (d, over) := OnUpdateFrame(c, uri, i);
      if over.None? then Took(Waiting(uri), c, i, d) && Sound(d)
      else d.notifications == c.notifications && (Takes(Waiting(uri), i) ==> !Fits(c, i.bytes))
  {
    if i.Line? && i.frame.Some? {
      RememberSound(c, i.frame.value, i.bytes);
    }
  }

  lemma {:induction false} AwaitUpdateBuffers(c: State, uri: string, incoming: seq<Incoming>)
    requires Sound(c)
    ensures
      var (d, _, read) := AwaitUpdate(c, uri, incoming);
      Buffers(Waiting(uri), c, incoming, d, read)
    decreases |incoming|
  {
    var who := Waiting(uri);
    if incoming == [] {
      BuffersNothing(who, c, incoming, c);
    } else {
      var (d, over) := OnUpdateFrame(c, uri, incoming[0]);
      UpdateStepTook(c, uri, incoming[0]);
      if over.Some? {
        BuffersLast(who, c, incoming, d);
      } else {
        AwaitUpdateBuffers(d, uri, incoming[1..]);
        var (e, _, read) := AwaitUpdate(d, uri, incoming[1..]);
        BuffersNext(who, c, d, incoming, e, read);
      }
    }
  }

  // ---------------------------------------------------------- whole operations

  /** How many frames an operation reads. */
  function ReadBy(c: State, op: Op): nat
    requires Sound(c)
  {
    match op
    case RequestOp(incoming, fate) => Request(c, incoming, fate).read
    case ToolOp(limit, allowRejection, incoming, fate) => CallTool(c, limit, allowRejection, incoming, fate).read
    case CancelOp(incoming, fate) => CancelCall(c, incoming, fate).read
    case WaitOp(uri, incoming) => WaitForUpdate(c, uri, incoming).2
  }

  /** Who listens during an operation; observed and cancelled calls do not. */
  function ListenerOf(op: Op): Option<Listener> {
    match op
    case RequestOp(_, _) => Some(Requesting)
    case WaitOp(uri, _) => Some(Waiting(uri))
    case _ => None
  }

  /** What an operation leaves of the buffer before it: a wait takes out the
      first update it waits for. */
  function LeftBy(c: State, op: Op): seq<Notification> {
    var i := if op.WaitOp? then FirstUpdate(c.notifications, op.uri) else |c.notifications|;
    if i < |c.notifications| then c.notifications[..i] + c.notifications[i + 1..] else c.notifications
  }

  /** A frame that the operation buffers: someone listens to it, and it fits
      together with all that came before it. */
  ghost predicate IsBuffered(c: State, op: Op, i: nat)
    requires i < |op.incoming|
  {
    && ListenerOf(op).Some?
    && Takes(ListenerOf(op).value, op.incoming[i])
    && Roomy(c, NotesIn(ListenerOf(op).value, op.incoming[..i + 1]))
  }

  lemma {:induction false} NoteIn(who: Listener, incoming: seq<Incoming>, n: Notification)
    ensures n in NotesIn(who, incoming) <==>
      exists i :: 0 <= i < |incoming| && Takes(who, incoming[i]) && n == NoteOf(incoming[i])
  {
    if incoming != [] {
      NoteIn(who, incoming[1..], n);
      assert forall i :: 0 <= i < |incoming| - 1 ==> incoming[1..][i] == incoming[i + 1];
      assert forall i :: 0 < i < |incoming| ==> incoming[i] == incoming[1..][i - 1];
    }
  }

  lemma {:induction false} RoomyEarlier(who: Listener, c: State, incoming: seq<Incoming>, j: nat, k: nat)
    requires j <= k <= |incoming| && Roomy(c, NotesIn(who, incoming[..k]))
    ensures Roomy(c, NotesIn(who, incoming[..j]))
    decreases k
  {
    if j < k {
      NotesSnoc(who, incoming[..k]);
      assert incoming[..k][..k - 1] == incoming[..k - 1];
      RoomyEarlier(who, c, incoming, j, k - 1);
    }
  }

  lemma {:induction false} NotesSnoc(who: Listener, incoming: seq<Incoming>)
    requires incoming != []
    ensures
      var n := |incoming| - 1;
      NotesIn(who, incoming) == NotesIn(who, incoming[..n])
        + if Takes(who, incoming[n]) then [NoteOf(incoming[n])] else []
    ensures Bytes(NotesIn(who, incoming[..|incoming| - 1])) <= Bytes(NotesIn(who, incoming))
  {
    var n := |incoming| - 1;
    if n > 0 {
      NotesSnoc(who, incoming[1..]);
      assert incoming[1..][..n - 1] == incoming[..n][1..];
    } else {
      assert incoming[1..] == [];
    }
    var all := NotesIn(who, incoming);
    if Takes(who, incoming[n]) {
      assert all[..|all| - 1] == NotesIn(who, incoming[..n]);
    } else {
      assert all == NotesIn(who, incoming[..n]);
    }
  }

  lemma {:induction false} KeptAreRoomy(who: Listener, c: State, incoming: seq<Incoming>, d: State, read: nat, i: nat)
    requires Buffers(who, c, incoming, d, read) && i < read
    ensures i < Kept(who, c, incoming, read) <==> Roomy(c, NotesIn(who, incoming[..i + 1]))
  {
    if i < Kept(who, c, incoming, read) {
      RoomyEarlier(who, c, incoming, i + 1, Kept(who, c, incoming, read));
    }
  }

  /** An operation that listens buffers exactly what `IsBuffered` says. */
  lemma {:induction false} BuffersMember(who: Listener, c: State, op: Op, d: State, read: nat, n: Notification)
    requires ListenerOf(op) == Some(who) && Buffers(who, c, op.incoming, d, read)
    ensures n in d.notifications <==>
      || n in c.notifications
      || exists i :: 0 <= i < |op.incoming| && i < read && IsBuffered(c, op, i) && n == NoteOf(op.incoming[i])
  {
    var kept := op.incoming[..Kept(who, c, op.incoming, read)];
    NoteIn(who, kept, n);
    assert forall i :: 0 <= i < |kept| ==> kept[i] == op.incoming[i];
    if n in NotesIn(who, kept) {
      var i :| 0 <= i < |kept| && Takes(who, kept[i]) && n == NoteOf(kept[i]);
      KeptAreRoomy(who, c, op.incoming, d, read, i);
      assert IsBuffered(c, op, i);
    }
    if i :| 0 <= i < |op.incoming| && i < read && IsBuffered(c, op, i) && n == NoteOf(op.incoming[i]) {
      KeptAreRoomy(who, c, op.incoming, d, read, i);
      assert Takes(who, kept[i]) && n == NoteOf(kept[i]);
    }
  }

  lemma {:induction false} RequestBuffers(c: State, incoming: seq<Incoming>, fate: nat -> Fate)
    requires Sound(c)
    ensures
      var e := Request(c, incoming, fate);
      Buffers(Requesting, c, incoming, e.client, e.read)
  {
    var (d, written) := Write(c.(nextId := c.nextId + 1), fate(0));
    if written {
      AwaitBuffers(d, c.nextId, 0, incoming, fate);
      var e := Await(d, c.nextId, 0, incoming, fate);
      BuffersSame(Requesting, d, c, incoming, e.client, e.read);
    } else {
      BuffersNothing(Requesting, c, incoming, d);
    }
  }

  /** The buffer after any operation holds what it left of the old one, and
      exactly the frames it buffered. */
  lemma {:induction false} BufferAfter(c: State, op: Op, n: Notification)
    requires Sound(c)
    ensures n in Perform(c, op).0.notifications <==>
      || n in LeftBy(c, op)
      || exists i :: 0 <= i < |op.incoming| && i < ReadBy(c, op) && IsBuffered(c, op, i) && n == NoteOf(op.incoming[i])
  {
    var d, read := Perform(c, op).0, ReadBy(c, op);
    match op
    case RequestOp(incoming, fate) =>
      RequestBuffers(c, incoming, fate);
      BuffersMember(Requesting, c, op, d, read, n);
    case WaitOp(uri, incoming) =>
      if FirstUpdate(c.notifications, uri) == |c.notifications| {
        AwaitUpdateBuffers(c, uri, incoming);
        BuffersMember(Waiting(uri), c, op, d, read, n);
      }
    case _ => DeafCallsBufferNothing(c, op);
  }

  lemma {:induction false} BuffersSame(who: Listener, c: State, c': State, incoming: seq<Incoming>, d: State, read: nat)
    requires c.notifications == c'.notifications && c.notificationBytes == c'.notificationBytes
    requires Buffers(who, c, incoming, d, read)
    ensures Buffers(who, c', incoming, d, read)
  {
    assert forall notes :: Roomy(c, notes) == Roomy(c', notes);
  }

  /** Observed and cancelled calls buffer nothing: what arrives during them is
      gone. */
  lemma {:induction false} DeafCallsBufferNothing(c: State, op: Op)
    requires Sound(c) && (op.ToolOp? || op.CancelOp?)
    ensures Perform(c, op).0.notifications == c.notifications
  {
    var d := c.(nextId := c.nextId + 1);
    match op
    case ToolOp(limit, allowRejection, incoming, fate) =>
      AwaitToolKeeps(Write(d, fate(0)).0, c.nextId, 0, limit, allowRejection, incoming, fate);
    case CancelOp(incoming, fate) =>
      AwaitCancelledKeeps(Write(Write(d, fate(0)).0, fate(1)).0, c.nextId, incoming);
  }

  /** After any operation, a wait that reads nothing sees an update of `uri` if
      and only if one was left in the buffer or one was buffered: read by a plain
      request, or by a wait for another resource, when it still fitted. */
  lemma {:induction false} UpdateFoundIff(c: State, op: Op, uri: string)
    requires Sound(c)
    ensures Sound(Perform(c, op).0)
    ensures WaitForUpdate(Perform(c, op).0, uri, []).1 <==>
      || (exists n :: n in LeftBy(c, op) && IsUpdate(n.frame, uri))
      || exists i :: 0 <= i < |op.incoming| && i < ReadBy(c, op) && IsBuffered(c, op, i)
                     && IsUpdate(op.incoming[i].frame.value, uri)
  {
    PerformSound(c, op);
    var after := Perform(c, op).0;
    SeenIffBuffered(after, uri);
    forall n ensures n in after.notifications <==>
      || n in LeftBy(c, op)
      || exists i :: 0 <= i < |op.incoming| && i < ReadBy(c, op) && IsBuffered(c, op, i) && n == NoteOf(op.incoming[i])
    {
      BufferAfter(c, op, n);
    }
    if i :| 0 <= i < |op.incoming| && i < ReadBy(c, op) && IsBuffered(c, op, i)
            && IsUpdate(op.incoming[i].frame.value, uri) {
      assert NoteOf(op.incoming[i]) in after.notifications;
    }
  }

  lemma {:induction false} SeenIffBuffered(c: State, uri: string)
    requires Sound(c)
    ensures WaitForUpdate(c, uri, []).1 <==> exists n :: n in c.notifications && IsUpdate(n.frame, uri)
  {
    var i := FirstUpdate(c.notifications, uri);
    if i < |c.notifications| {
      assert c.notifications[i] in c.notifications;
    }
  }

  /** An update that a plain request read, and that fitted when it came, is found
      by the wait after it, without reading on. */
  lemma {:induction false} UpdateIsNotLost(c: State, incoming: seq<Incoming>, fate: nat -> Fate, uri: string, i: nat,
                                           later: seq<Incoming>)
    requires Sound(c) && i < |incoming| && i < Request(c, incoming, fate).read
    requires IsNote(incoming[i]) && IsUpdate(incoming[i].frame.value, uri)
    requires Roomy(c, NotesIn(Requesting, incoming[..i + 1]))
    ensures Sound(Request(c, incoming, fate).client)
    ensures
      var (d, seen, read) := WaitForUpdate(Request(c, incoming, fate).client, uri, later);
      seen && read == 0
  {
    var op := RequestOp(incoming, fate);
    UpdateFoundIff(c, op, uri);
    assert IsBuffered(c, op, i);
  }
}
