/** Late replies to requests that were given up: in both waits they are discarded
    and never taken for the reply that is due. */
module ClientReplies {
  import opened Common
  import opened Json
  import opened Client
  import opened ClientBuffer

  /** A frame under the id of a request given up, as a request (or, `observed`,
      a tool call that answers server requests) takes it. */
  predicate IsLate(observed: bool, c: State, i: Incoming) {
    && i.Line? && i.frame.Some? && i.frame.value.Obj? && IsAbandonedReply(c, i.frame.value)
    && if observed then IsResponse(i.frame.value)
       else IsTwo(i.frame.value) && !(c.emptyRoots && MethodOf(i.frame.value) == Some("roots/list"))
  }

  function LateIn(observed: bool, c: State, incoming: seq<Incoming>): set<nat> {
    if incoming == [] then {}
    else
      (if IsLate(observed, c, incoming[0]) then {IdOf(incoming[0].frame.value).value} else {})
      + LateIn(observed, c, incoming[1..])
  }

  /** Each late id comes at most once. */
  ghost predicate LateOnce(observed: bool, c: State, incoming: seq<Incoming>) {
    forall i, j :: 0 <= i < j < |incoming| && IsLate(observed, c, incoming[i]) && IsLate(observed, c, incoming[j]) ==>
      IdOf(incoming[i].frame.value) != IdOf(incoming[j].frame.value)
  }

  lemma {:induction false} LateAfter(observed: bool, c: State, d: State, incoming: seq<Incoming>)
    requires d.emptyRoots == c.emptyRoots && d.abandoned <= c.abandoned
    requires forall i :: 0 <= i < |incoming| && IsLate(observed, c, incoming[i]) ==>
      IdOf(incoming[i].frame.value).value in d.abandoned
    ensures LateIn(observed, d, incoming) == LateIn(observed, c, incoming)
    ensures forall i :: 0 <= i < |incoming| ==> IsLate(observed, d, incoming[i]) == IsLate(observed, c, incoming[i])
  {
    if incoming != [] {
      assert IsLate(observed, d, incoming[0]) == IsLate(observed, c, incoming[0]);
      LateAfter(observed, c, d, incoming[1..]);
      assert forall i :: 0 < i < |incoming| ==> incoming[i] == incoming[1..][i - 1];
    }
  }

  /** What is left to come once the first frame was taken. */
  lemma {:induction false} LateRest(observed: bool, c: State, d: State, incoming: seq<Incoming>)
    requires incoming != [] && LateOnce(observed, c, incoming) && d.emptyRoots == c.emptyRoots
    requires d.abandoned == if IsLate(observed, c, incoming[0])
                            then c.abandoned - {IdOf(incoming[0].frame.value).value} else c.abandoned
    ensures LateOnce(observed, d, incoming[1..])
    ensures d.abandoned - LateIn(observed, d, incoming[1..]) == c.abandoned - LateIn(observed, c, incoming)
    ensures forall i :: 0 <= i < |incoming| - 1 ==>
      IsLate(observed, d, incoming[1..][i]) == IsLate(observed, c, incoming[i + 1])
  {
    var rest := incoming[1..];
    assert forall i :: 0 <= i < |rest| ==> rest[i] == incoming[i + 1];
    LateAfter(observed, c, d, rest);
  }

  // ------------------------------------------------------- in a plain request

  /** Skipped whatever the request waits for. */
  predicate IsNoise(i: Incoming) {
    i.Line? && (!IsEnvelope(i.frame) || (!Has(i.frame.value, "id") && MethodOf(i.frame.value).None?))
  }

  /** A server request that is answered with no roots. */
  predicate IsRoots(emptyRoots: bool, i: Incoming) {
    emptyRoots && i.Line? && IsEnvelope(i.frame) && Has(i.frame.value, "id")
    && MethodOf(i.frame.value) == Some("roots/list")
  }

  function RootsIn(emptyRoots: bool, incoming: seq<Incoming>): nat {
    if incoming == [] then 0
    else (if IsRoots(emptyRoots, incoming[0]) then 1 else 0) + RootsIn(emptyRoots, incoming[1..])
  }

  /** Noise, notifications, roots requests and late replies, interleaved anyhow. */
  ghost predicate Interleaving(c: State, incoming: seq<Incoming>) {
    && (forall i :: 0 <= i < |incoming| ==>
          IsNoise(incoming[i]) || IsNote(incoming[i]) || IsRoots(c.emptyRoots, incoming[i])
          || IsLate(false, c, incoming[i]))
    && LateOnce(false, c, incoming)
  }

  /** The client can answer `asked` more server requests. */
  ghost predicate CanServe(c: State, served: nat, asked: nat, limit: nat, fate: nat -> Fate) {
    !c.failed && served + asked <= limit && forall k :: served < k <= served + asked ==> fate(k) == Accepted
  }

  /** Eight server requests are answered while one request waits; the ninth ends
      the wait. */
  lemma {:induction false} NinthRequestEnds(c: State, id: nat, served: nat, i: Incoming, fate: nat -> Fate)
    requires IsRoots(c.emptyRoots, i)
    ensures OnFrame(c, id, served, i.frame, i.bytes, fate) == Over(c, Failed(RootsLimit)) <==> served >= 8
  {
  }

  function After(c: State, incoming: seq<Incoming>): State {
    var notes := NotesIn(Requesting, incoming);
    c.(abandoned := c.abandoned - LateIn(false, c, incoming),
       notifications := c.notifications + notes,
       notificationBytes := c.notificationBytes + Bytes(notes))
  }

  /** The client `d` once one more frame was taken. */
  ghost predicate Absorbs(c: State, i: Incoming, d: State) {
    && Took(Requesting, c, i, d)
    && d == c.(abandoned := d.abandoned, notifications := d.notifications, notificationBytes := d.notificationBytes)
    && d.abandoned == if IsLate(false, c, i) then c.abandoned - {IdOf(i.frame.value).value} else c.abandoned
  }

  lemma {:induction false} AbsorbOne(c: State, id: nat, served: nat, noise: seq<Incoming>, fate: nat -> Fate)
    requires noise != [] && Interleaving(c, noise) && Roomy(c, NotesIn(Requesting, noise))
    requires CanServe(c, served, RootsIn(c.emptyRoots, noise), MAX_SERVER_REQUESTS, fate)
    ensures
      var step := OnFrame(c, id, served, noise[0].frame, noise[0].bytes, fate);
      && step.Absorbed? && Absorbs(c, noise[0], step.client)
      && CanServe(step.client, step.served, RootsIn(c.emptyRoots, noise[1..]), MAX_SERVER_REQUESTS, fate)
  {
    if IsNote(noise[0]) {
      BytesCons(NoteOf(noise[0]), NotesIn(Requesting, noise[1..]));
    }
  }

  lemma {:induction false} NotesRest(c: State, d: State, noise: seq<Incoming>)
    requires noise != [] && Took(Requesting, c, noise[0], d)
    ensures
      var all, rest := NotesIn(Requesting, noise), NotesIn(Requesting, noise[1..]);
      && (Roomy(d, rest) <==> Roomy(c, all))
      && d.notifications + rest == c.notifications + all
      && d.notificationBytes + Bytes(rest) == c.notificationBytes + Bytes(all)
  {
    var rest := NotesIn(Requesting, noise[1..]);
    assert [noise[0]] + noise[1..] == noise;
    RoomyNext(Requesting, c, d, noise[0], noise[1..]);
    assert NotesIn(Requesting, noise) == if IsNote(noise[0]) then [NoteOf(noise[0])] + rest else rest;
    if IsNote(noise[0]) {
      BytesCons(NoteOf(noise[0]), rest);
    }
  }

  lemma {:induction false} InterleavingRest(c: State, d: State, noise: seq<Incoming>)
    requires noise != [] && Interleaving(c, noise) && Absorbs(c, noise[0], d)
    ensures Interleaving(d, noise[1..])
    ensures d.abandoned - LateIn(false, d, noise[1..]) == c.abandoned - LateIn(false, c, noise)
  {
    var rest := noise[1..];
    LateRest(false, c, d, noise);
    assert forall i :: 0 <= i < |rest| ==> rest[i] == noise[i + 1];
  }

  lemma {:induction false} AbsorbRest(c: State, d: State, noise: seq<Incoming>)
    requires noise != [] && Interleaving(c, noise) && Roomy(c, NotesIn(Requesting, noise))
    requires Absorbs(c, noise[0], d)
    ensures Interleaving(d, noise[1..]) && Roomy(d, NotesIn(Requesting, noise[1..]))
    ensures After(d, noise[1..]) == After(c, noise)
  {
    InterleavingRest(c, d, noise);
    NotesRest(c, d, noise);
  }

  lemma {:induction false} AwaitDiscards(c: State, id: nat, served: nat, noise: seq<Incoming>, reply: Value, bytes: nat,
                                         more: seq<Incoming>, fate: nat -> Fate)
    requires id !in c.abandoned
    requires Interleaving(c, noise) && Roomy(c, NotesIn(Requesting, noise))
    requires CanServe(c, served, RootsIn(c.emptyRoots, noise), MAX_SERVER_REQUESTS, fate)
    requires reply.Obj? && IsTwo(reply) && IdOf(reply) == Some(id) && OneResult(reply)
    requires !(c.emptyRoots && MethodOf(reply) == Some("roots/list"))
    ensures Await(c, id, served, noise + [Line(Some(reply), bytes)] + more, fate)
         == Ended(After(c, noise), Done(reply), |noise| + 1)
    decreases |noise|
  {
    var all := noise + [Line(Some(reply), bytes)] + more;
    if noise == [] {
      assert all[0] == Line(Some(reply), bytes);
      assert After(c, noise) == c;
    } else {
      AbsorbOne(c, id, served, noise, fate);
      var step := OnFrame(c, id, served, noise[0].frame, noise[0].bytes, fate);
      AbsorbRest(c, step.client, noise);
      AwaitDiscards(step.client, id, step.served, noise[1..], reply, bytes, more, fate);
      assert all[1..] == noise[1..] + [Line(Some(reply), bytes)] + more;
    }
  }

  /** Noise, notifications that fit, roots requests the client may still answer
      and late replies, each once, interleaved anyhow, never stop a request from
      returning its own reply; what they leave behind is the buffered
      notifications and the forgotten ids. */
  lemma {:induction false} LateRepliesAreDiscarded(c: State, noise: seq<Incoming>, reply: Value, bytes: nat,
                                                   more: seq<Incoming>, fate: nat -> Fate)
    requires Sound(c) && fate(0) == Accepted
    requires Interleaving(c, noise) && Roomy(c, NotesIn(Requesting, noise))
    requires CanServe(c, 0, RootsIn(c.emptyRoots, noise), 8, fate)
    requires reply.Obj? && IsTwo(reply) && IdOf(reply) == Some(c.nextId) && OneResult(reply)
    requires !(c.emptyRoots && MethodOf(reply) == Some("roots/list"))
    ensures Request(c, noise + [Line(Some(reply), bytes)] + more, fate)
         == Ended(After(c, noise).(nextId := c.nextId + 1), Done(reply), |noise| + 1)
  {
    var d := c.(nextId := c.nextId + 1);
    LateAfter(false, c, d, noise);
    AwaitDiscards(d, c.nextId, 0, noise, reply, bytes, more, fate);
  }

  // -------------------------------------------------- in an observed tool call

  /** Its method is a name below `notifications/`. */
  predicate IsNotice(v: Value) {
    MethodOf(v).Some? && |MethodOf(v).value| >= 14 && MethodOf(v).value[..14] == "notifications/"
  }

  /** Skipped whatever the call waits for. */
  predicate IsQuiet(i: Incoming) {
    && i.Line?
    && (i.frame.None? || !i.frame.value.Obj?
        || (!IsResponse(i.frame.value)
            && (MethodOf(i.frame.value).None? || IsNotice(i.frame.value) || !Has(i.frame.value, "id"))))
  }

  /** A server request, answered through the observer. */
  predicate IsAsk(i: Incoming) {
    && i.Line? && i.frame.Some? && i.frame.value.Obj? && !IsResponse(i.frame.value) && Has(i.frame.value, "id")
    && MethodOf(i.frame.value).Some? && !IsNotice(i.frame.value)
  }

  function AsksIn(incoming: seq<Incoming>): nat {
    if incoming == [] then 0 else (if IsAsk(incoming[0]) then 1 else 0) + AsksIn(incoming[1..])
  }

  ghost predicate ToolInterleaving(c: State, incoming: seq<Incoming>) {
    && (forall i :: 0 <= i < |incoming| ==> IsQuiet(incoming[i]) || IsAsk(incoming[i]) || IsLate(true, c, incoming[i]))
    && LateOnce(true, c, incoming)
  }

  lemma {:induction false} AwaitToolDiscards(c: State, id: nat, served: nat, limit: nat, allowRejection: bool,
                                             noise: seq<Incoming>, reply: Value, bytes: nat, more: seq<Incoming>,
                                             fate: nat -> Fate)
    requires id !in c.abandoned
    requires ToolInterleaving(c, noise) && CanServe(c, served, AsksIn(noise), limit, fate)
    requires reply.Obj? && IsResponse(reply) && IdOf(reply) == Some(id)
    ensures AwaitTool(c, id, served, limit, allowRejection, noise + [Line(Some(reply), bytes)] + more, fate)
         == Ended(c.(abandoned := c.abandoned - LateIn(true, c, noise)), Classify(reply), |noise| + 1)
    decreases |noise|
  {
    var all := noise + [Line(Some(reply), bytes)] + more;
    if noise == [] {
      assert all[0] == Line(Some(reply), bytes);
      assert c.abandoned - LateIn(true, c, noise) == c.abandoned;
    } else {
      var step := OnToolFrame(c, id, served, limit, allowRejection, noise[0].frame, fate);
      ToolAbsorbOne(c, id, served, limit, allowRejection, noise, fate);
      LateRest(true, c, step.client, noise);
      assert forall i :: 0 <= i < |noise[1..]| ==> noise[1..][i] == noise[i + 1];
      AwaitToolDiscards(step.client, id, step.served, limit, allowRejection, noise[1..], reply, bytes, more, fate);
      assert all[1..] == noise[1..] + [Line(Some(reply), bytes)] + more;
    }
  }

  lemma {:induction false} ToolAbsorbOne(c: State, id: nat, served: nat, limit: nat, allowRejection: bool,
                                         noise: seq<Incoming>, fate: nat -> Fate)
    requires noise != [] && ToolInterleaving(c, noise) && CanServe(c, served, AsksIn(noise), limit, fate)
    ensures
      var step := OnToolFrame(c, id, served, limit, allowRejection, noise[0].frame, fate);
      && step.Absorbed? && CanServe(step.client, step.served, AsksIn(noise[1..]), limit, fate)
      && step.client == c.(abandoned := step.client.abandoned)
      && step.client.abandoned == if IsLate(true, c, noise[0])
                                  then c.abandoned - {IdOf(noise[0].frame.value).value} else c.abandoned
  {
  }

  /** The same for a tool call that answers server requests: its own response is
      the one it classifies. */
  lemma {:induction false} LateResponsesAreDiscarded(c: State, limit: nat, allowRejection: bool, noise: seq<Incoming>,
                                                     reply: Value, bytes: nat, more: seq<Incoming>, fate: nat -> Fate)
    requires Sound(c) && fate(0) == Accepted
    requires ToolInterleaving(c, noise) && CanServe(c, 0, AsksIn(noise), limit, fate)
    requires reply.Obj? && IsResponse(reply) && IdOf(reply) == Some(c.nextId)
    ensures CallTool(c, limit, allowRejection, noise + [Line(Some(reply), bytes)] + more, fate)
         == Ended(c.(nextId := c.nextId + 1, abandoned := c.abandoned - LateIn(true, c, noise)), Classify(reply),
                  |noise| + 1)
  {
    var d := c.(nextId := c.nextId + 1);
    LateAfter(true, c, d, noise);
    AwaitToolDiscards(d, c.nextId, 0, limit, allowRejection, noise, reply, bytes, more, fate);
  }

  // ------------------------------------------------------------ what is not late

  /** A frame under any other id, abandoned never or no longer, ends the wait. */
  lemma {:induction false} StrangerEndsTheWait(c: State, id: nat, served: nat, v: Value, bytes: nat,
                                               more: seq<Incoming>,
                                               fate: nat -> Fate)
    requires v.Obj? && IsTwo(v) && Has(v, "id") && IdOf(v) != Some(id) && !IsAbandonedReply(c, v)
    requires !(c.emptyRoots && MethodOf(v) == Some("roots/list"))
    ensures Await(c, id, served, [Line(Some(v), bytes)] + more, fate) == Ended(c, Failed(IdMismatch), 1)
  {
    assert ([Line(Some(v), bytes)] + more)[0] == Line(Some(v), bytes);
  }

  /** So a late reply sent twice is caught, and so is one whose id a request of
      the server's own used up first. */
  lemma {:induction false} LateReplyTwiceFails(c: State, id: nat, served: nat, first: Value, second: Value, bytes: nat,
                                               bytes': nat, more: seq<Incoming>, fate: nat -> Fate)
    requires IsLate(false, c, Line(Some(first), bytes)) && IdOf(second) == IdOf(first) && IdOf(first) != Some(id)
    requires second.Obj? && IsTwo(second) && !(c.emptyRoots && MethodOf(second) == Some("roots/list"))
    ensures Await(c, id, served, [Line(Some(first), bytes), Line(Some(second), bytes')] + more, fate)
         == Ended(Forget(c, first), Failed(IdMismatch), 2)
  {
    var all := [Line(Some(first), bytes), Line(Some(second), bytes')] + more;
    assert all[0] == Line(Some(first), bytes);
    assert all[1..] == [Line(Some(second), bytes')] + more;
    StrangerEndsTheWait(Forget(c, first), id, served, second, bytes', more, fate);
  }
}
