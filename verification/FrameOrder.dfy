/** The consumer's reorder buffer (src/shim.rs): completions arrive in any order
    and leave in reservation order. */
module FrameOrder {
  import opened Common
  import opened Json

  datatype Direction = Outbound | Inbound

  /** What is known of a frame when it is reserved; no value means the line was
      not JSON. */
  datatype Metadata = Metadata(direction: Direction, value: Option<Value>, observedMs: nat)

  datatype Completed = Completed(metadata: Metadata, selfUs: nat)

  datatype FrameState = Reserved | Forwarded(selfUs: nat) | Retired

  datatype PendingFrame = PendingFrame(metadata: Option<Metadata>, state: FrameState)

  datatype OrderError = OutOfOrder | UnknownReservation | CompletedTwice | CompletedAfterRetirement

  datatype Event =
    | ReservedEvent(sequence: nat, metadata: Metadata)
    | ForwardedEvent(sequence: nat, selfUs: nat)
    | FinishedEvent(direction: Direction, failed: bool)

  /** The three fields of `FrameOrder`. */
  datatype Order = Order(nextReservation: nat, nextReady: nat, pending: map<nat, PendingFrame>)

  const EMPTY: Order := Order(0, 0, map[])

  /** A frame that can still be recorded keeps its metadata. */
  predicate KeepsMetadata(pending: map<nat, PendingFrame>) {
    forall k :: k in pending && pending[k].metadata.None? ==> pending[k].state.Retired?
  }

  // ------------------------------------------------------- the operations

  function ReserveStep(o: Order, sequence: nat, metadata: Metadata): (Order, Option<OrderError>) {
    if sequence != o.nextReservation then (o, Some(OutOfOrder))
    else (Order(o.nextReservation + 1, o.nextReady,
                o.pending[sequence := PendingFrame(Some(metadata), Reserved)]), None)
  }

  function CompleteStep(o: Order, sequence: nat, selfUs: nat): (Order, Option<OrderError>) {
    if sequence !in o.pending then (o, Some(UnknownReservation))
    else match o.pending[sequence].state
      case Reserved =>
        (o.(pending := o.pending[sequence := o.pending[sequence].(state := Forwarded(selfUs))]), None)
      case Forwarded(_) => (o, Some(CompletedTwice))
      case Retired => (o, Some(CompletedAfterRetirement))
  }

  predicate RetiredBy(p: PendingFrame, direction: Direction) {
    p.state.Reserved? && p.metadata.Some? && p.metadata.value.direction == direction
  }

  function RetireStep(o: Order, direction: Direction): Order {
    o.(pending := map k | k in o.pending ::
         if RetiredBy(o.pending[k], direction) then PendingFrame(None, Retired) else o.pending[k])
  }

  /** Release the frames whose turn has come, in reservation order. */
  function DrainStep(o: Order): (Order, seq<Completed>)
    requires KeepsMetadata(o.pending)
    decreases |o.pending|
  {
    if o.nextReady !in o.pending || o.pending[o.nextReady].state.Reserved? then (o, [])
    else
      var head := o.pending[o.nextReady];
      var (rest, frames) := DrainStep(Order(o.nextReservation, o.nextReady + 1, o.pending - {o.nextReady}));
      (rest, (if head.state.Forwarded? then [Completed(head.metadata.value, head.state.selfUs)] else []) + frames)
  }

  /** `FrameOrder`: the buffer itself, updated in place. */
  class Buffer {
    var nextReservation: nat
    var nextReady: nat
    var pending: map<nat, PendingFrame>

    function View(): Order reads this { Order(nextReservation, nextReady, pending) }

    ghost predicate Valid() reads this { KeepsMetadata(pending) }

    constructor ()
      ensures Valid() && View() == EMPTY
    {
      nextReservation, nextReady, pending := 0, 0, map[];
    }

    method Reserve(sequence: nat, metadata: Metadata) returns (error: Option<OrderError>)
      requires Valid()
      modifies this
      ensures Valid() && (View(), error) == ReserveStep(old(View()), sequence, metadata)
    {
      if sequence != nextReservation {
        return Some(OutOfOrder);
      }
      pending := pending[sequence := PendingFrame(Some(metadata), Reserved)];
      nextReservation := nextReservation + 1;
      return None;
    }

    method Complete(sequence: nat, selfUs: nat) returns (error: Option<OrderError>)
      requires Valid()
      modifies this
      ensures Valid() && (View(), error) == CompleteStep(old(View()), sequence, selfUs)
    {
      if sequence !in pending {
        return Some(UnknownReservation);
      }
      match pending[sequence].state {
        case Reserved =>
          pending := pending[sequence := pending[sequence].(state := Forwarded(selfUs))];
          return None;
        case Forwarded(_) =>
          return Some(CompletedTwice);
        case Retired =>
          return Some(CompletedAfterRetirement);
      }
    }

    method RetireUnfinished(direction: Direction)
      requires Valid()
      modifies this
      ensures Valid() && View() == RetireStep(old(View()), direction)
    {
      var keys := pending.Keys;
      ghost var start := pending;
      while keys != {}
        invariant keys <= start.Keys == pending.Keys
        invariant forall k :: k in start ==>
          pending[k] == if k !in keys && RetiredBy(start[k], direction) then PendingFrame(None, Retired) else start[k]
        invariant nextReservation == old(nextReservation) && nextReady == old(nextReady)
        decreases |keys|
      {
        var k :| k in keys;
        if RetiredBy(pending[k], direction) {
          pending := pending[k := PendingFrame(None, Retired)];
        }
        keys := keys - {k};
      }
      assert pending == RetireStep(old(View()), direction).pending;
    }

    method DrainReady() returns (ready: seq<Completed>)
      requires Valid()
      modifies this
      ensures Valid() && (View(), ready) == DrainStep(old(View()))
    {
      ready := [];
      while nextReady in pending && !pending[nextReady].state.Reserved?
        invariant Valid()
        invariant DrainStep(old(View())).0 == DrainStep(View()).0
        invariant DrainStep(old(View())).1 == ready + DrainStep(View()).1
        decreases |pending|
      {
        var head := pending[nextReady];
        pending := pending - {nextReady};
        nextReady := nextReady + 1;
        if head.state.Forwarded? {
          ready := ready + [Completed(head.metadata.value, head.state.selfUs)];
        }
      }
      assert DrainStep(View()) == (View(), []);
      assert ready + [] == ready;
    }
  }

  // ------------------------------------- the simple form: an append-only ledger

  datatype Status = Open | Done(selfUs: nat) | Lost

  datatype Entry = Entry(metadata: Metadata, status: Status)

  /** Which events the protocol allows next. */
  predicate Allowed(ledger: seq<Entry>, e: Event) {
    match e
    case ReservedEvent(n, _) => n == |ledger|
    case ForwardedEvent(n, _) => n < |ledger| && ledger[n].status.Open?
    case FinishedEvent(_, _) => true
  }

  function Close(ledger: seq<Entry>, direction: Direction): (r: seq<Entry>)
    ensures |r| == |ledger|
  {
    seq(|ledger|, i requires 0 <= i < |ledger| =>
      if ledger[i].status.Open? && ledger[i].metadata.direction == direction
      then ledger[i].(status := Lost) else ledger[i])
  }

  function Post(ledger: seq<Entry>, e: Event): seq<Entry>
    requires Allowed(ledger, e)
  {
    match e
    case ReservedEvent(_, m) => ledger + [Entry(m, Open)]
    case ForwardedEvent(n, us) => ledger[n := ledger[n].(status := Done(us))]
    case FinishedEvent(d, _) => Close(ledger, d)
  }

  /** The completed frames, in reservation order. */
  function CompletedOf(ledger: seq<Entry>): seq<Completed> {
    if ledger == [] then []
    else
      var n := |ledger| - 1;
      CompletedOf(ledger[..n])
      + if ledger[n].status.Done? then [Completed(ledger[n].metadata, ledger[n].status.selfUs)] else []
  }

  function Pending(e: Entry): PendingFrame {
    match e.status
    case Open => PendingFrame(Some(e.metadata), Reserved)
    case Done(us) => PendingFrame(Some(e.metadata), Forwarded(us))
    case Lost => PendingFrame(None, Retired)
  }

  /** The buffer holds the ledger from `nextReady` on, and nothing else. */
  ghost predicate Represents(o: Order, ledger: seq<Entry>) {
    && o.nextReady <= o.nextReservation == |ledger|
    && (forall i :: 0 <= i < o.nextReady ==> !ledger[i].status.Open?)
    && (forall k :: k in o.pending <==> o.nextReady <= k < |ledger|)
    && (forall k :: o.nextReady <= k < |ledger| ==> o.pending[k] == Pending(ledger[k]))
  }

  /** And it holds nothing that could be released. */
  ghost predicate Waits(o: Order, ledger: seq<Entry>) {
    Represents(o, ledger) && (o.nextReady < |ledger| ==> ledger[o.nextReady].status.Open?)
  }

  lemma {:induction false} RepresentsKeeps(o: Order, ledger: seq<Entry>)
    requires Represents(o, ledger)
    ensures KeepsMetadata(o.pending)
  {
    forall k | k in o.pending && o.pending[k].metadata.None? ensures o.pending[k].state.Retired? {
      assert o.pending[k] == Pending(ledger[k]);
    }
  }

  lemma {:induction false} CompletedNext(ledger: seq<Entry>, n: nat)
    requires n < |ledger|
    ensures CompletedOf(ledger[..n + 1]) == CompletedOf(ledger[..n])
      + if ledger[n].status.Done? then [Completed(ledger[n].metadata, ledger[n].status.selfUs)] else []
  {
    assert ledger[..n + 1][..n] == ledger[..n];
  }

  lemma {:induction false} ReleaseHead(o: Order, ledger: seq<Entry>)
    requires Represents(o, ledger)
    requires o.nextReady in o.pending && !o.pending[o.nextReady].state.Reserved?
    ensures Represents(Order(o.nextReservation, o.nextReady + 1, o.pending - {o.nextReady}), ledger)
  {
    assert o.pending[o.nextReady] == Pending(ledger[o.nextReady]);
  }

  /** What releasing frame `n` yields. */
  function Released(ledger: seq<Entry>, n: nat): seq<Completed>
    requires n < |ledger|
  {
    if ledger[n].status.Done? then [Completed(ledger[n].metadata, ledger[n].status.selfUs)] else []
  }

  lemma {:induction false} DrainHead(o: Order, ledger: seq<Entry>, next: Order)
    requires Represents(o, ledger) && KeepsMetadata(o.pending)
    requires o.nextReady in o.pending && !o.pending[o.nextReady].state.Reserved?
    requires next == Order(o.nextReservation, o.nextReady + 1, o.pending - {o.nextReady})
    ensures Represents(next, ledger) && KeepsMetadata(next.pending)
    ensures DrainStep(o) == (DrainStep(next).0, Released(ledger, o.nextReady) + DrainStep(next).1)
    ensures CompletedOf(ledger[..next.nextReady]) == CompletedOf(ledger[..o.nextReady]) + Released(ledger, o.nextReady)
  {
    ReleaseHead(o, ledger);
    RepresentsKeeps(next, ledger);
    CompletedNext(ledger, o.nextReady);
    assert o.pending[o.nextReady] == Pending(ledger[o.nextReady]);
  }

  lemma {:induction false} DrainWaits(o: Order, ledger: seq<Entry>)
    requires Represents(o, ledger) && KeepsMetadata(o.pending)
    ensures Waits(DrainStep(o).0, ledger) && o.nextReady <= DrainStep(o).0.nextReady
    decreases |o.pending|
  {
    if o.nextReady in o.pending && !o.pending[o.nextReady].state.Reserved? {
      var next := Order(o.nextReservation, o.nextReady + 1, o.pending - {o.nextReady});
      DrainHead(o, ledger, next);
      DrainWaits(next, ledger);
    } else if o.nextReady < |ledger| {
      assert o.pending[o.nextReady] == Pending(ledger[o.nextReady]);
    }
  }

  /** Draining releases exactly the completed frames of the next closed stretch. */
  lemma {:induction false} DrainRepresents(o: Order, ledger: seq<Entry>)
    requires Represents(o, ledger) && KeepsMetadata(o.pending)
    ensures
      var (p, frames) := DrainStep(o);
      && Waits(p, ledger) && o.nextReady <= p.nextReady
      && CompletedOf(ledger[..p.nextReady]) == CompletedOf(ledger[..o.nextReady]) + frames
    decreases |o.pending|
  {
    DrainWaits(o, ledger);
    if o.nextReady in o.pending && !o.pending[o.nextReady].state.Reserved? {
      var next := Order(o.nextReservation, o.nextReady + 1, o.pending - {o.nextReady});
      DrainHead(o, ledger, next);
      DrainRepresents(next, ledger);
      var before, head, rest := CompletedOf(ledger[..o.nextReady]), Released(ledger, o.nextReady), DrainStep(next).1;
      assert before + head + rest == before + (head + rest);
    }
  }

  /** `handle_event` up to the drain. */
  function Apply(o: Order, e: Event): (Order, Option<OrderError>) {
    match e
    case ReservedEvent(n, m) => ReserveStep(o, n, m)
    case ForwardedEvent(n, us) => CompleteStep(o, n, us)
    case FinishedEvent(d, _) => (RetireStep(o, d), None)
  }

  lemma {:induction false} ApplyRepresents(o: Order, ledger: seq<Entry>, e: Event)
    requires Represents(o, ledger) && Allowed(ledger, e)
    ensures Apply(o, e).1.None? && Represents(Apply(o, e).0, Post(ledger, e))
    ensures Apply(o, e).0.nextReady == o.nextReady
    ensures CompletedOf(Post(ledger, e)[..o.nextReady]) == CompletedOf(ledger[..o.nextReady])
  {
    var p := Apply(o, e).0;
    match e {
      case ReservedEvent(n, m) =>
        assert Post(ledger, e)[..o.nextReady] == ledger[..o.nextReady];
      case ForwardedEvent(n, us) =>
        assert n >= o.nextReady;
        assert o.pending[n] == Pending(ledger[n]);
        assert Post(ledger, e)[..o.nextReady] == ledger[..o.nextReady];
      case FinishedEvent(d, _) =>
        forall k | o.nextReady <= k < |ledger| ensures p.pending[k] == Pending(Post(ledger, e)[k]) {
          assert o.pending[k] == Pending(ledger[k]);
        }
        assert Post(ledger, e)[..o.nextReady] == ledger[..o.nextReady];
    }
  }

  /** `handle_event`: apply one event, then release what it unblocked. */
  function Handle(o: Order, e: Event): (Order, seq<Completed>, Option<OrderError>)
    requires KeepsMetadata(o.pending)
  {
    var (applied, error) := Apply(o, e);
    var (drained, frames) := DrainStep(applied);
    (drained, frames, error)
  }

  /** One allowed event: no error, and the buffer still waits on the ledger,
      having released exactly what the ledger newly settled. */
  lemma {:induction false} HandleRefines(o: Order, ledger: seq<Entry>, e: Event)
    requires Waits(o, ledger) && Allowed(ledger, e)
    ensures KeepsMetadata(o.pending)
    ensures
      var (p, frames, error) := Handle(o, e);
      && error.None? && Waits(p, Post(ledger, e))
      && CompletedOf(Post(ledger, e)[..p.nextReady]) == CompletedOf(ledger[..o.nextReady]) + frames
  {
    RepresentsKeeps(o, ledger);
    ApplyRepresents(o, ledger, e);
    RepresentsKeeps(Apply(o, e).0, Post(ledger, e));
    DrainRepresents(Apply(o, e).0, Post(ledger, e));
  }

  /** The errors are exactly the protocol violations, and each names which one:
      a sequence not next in line, one never reserved or already released, one
      completed before, one given up. An error changes nothing and releases
      nothing. */
  lemma {:induction false} ErrorsAreViolations(o: Order, ledger: seq<Entry>, e: Event)
    requires Waits(o, ledger)
    ensures KeepsMetadata(o.pending)
    ensures Handle(o, e).2.Some? <==> !Allowed(ledger, e)
    ensures Handle(o, e).2.Some? ==> Handle(o, e).0 == o && Handle(o, e).1 == []
    ensures Handle(o, e).2 == Some(OutOfOrder) <==> e.ReservedEvent? && e.sequence != |ledger|
    ensures Handle(o, e).2 == Some(UnknownReservation) <==>
              e.ForwardedEvent? && !(o.nextReady <= e.sequence < |ledger|)
    ensures Handle(o, e).2 == Some(CompletedTwice) <==>
              e.ForwardedEvent? && o.nextReady <= e.sequence < |ledger| && ledger[e.sequence].status.Done?
    ensures Handle(o, e).2 == Some(CompletedAfterRetirement) <==>
              e.ForwardedEvent? && o.nextReady <= e.sequence < |ledger| && ledger[e.sequence].status.Lost?
  {
    RepresentsKeeps(o, ledger);
    if e.ForwardedEvent? && o.nextReady <= e.sequence < |ledger| {
      assert o.pending[e.sequence] == Pending(ledger[e.sequence]);
    }
    if Allowed(ledger, e) {
      HandleRefines(o, ledger, e);
    } else {
      assert Apply(o, e).0 == o;
      assert o.nextReady in o.pending ==> o.pending[o.nextReady] == Pending(ledger[o.nextReady]);
    }
  }

  /** Once every entry is closed the buffer is empty and caught up. */
  lemma {:induction false} NothingLeftBehind(o: Order, ledger: seq<Entry>)
    requires Waits(o, ledger)
    requires forall i :: 0 <= i < |ledger| ==> !ledger[i].status.Open?
    ensures o.pending == map[] && o.nextReady == o.nextReservation == |ledger|
  {
    assert forall k :: k !in o.pending;
  }
}
