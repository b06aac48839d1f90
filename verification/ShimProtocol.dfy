/** The recording shim as a step system (src/shim.rs): two pump threads, the
    child behind them and the single consumer, interleaved in any way. */
module ShimProtocol {
  import opened Common
  import opened Json
  import opened FrameOrder
  import opened Correlator

  /** A reserved frame, with what happened to it since. `answers` is the request
      it answers, as the child meant it; the shim does not see that field. */
  datatype Frame = Frame(metadata: Metadata, answers: Option<nat>, delivered: bool, posted: Option<nat>)

  /** Where a pump thread is in its loop. */
  datatype Pump =
    | Idle
    | Holding(value: Option<Value>, observedMs: nat, answers: Option<nat>)
    | Reserving(n: nat)
    | Forwarding(n: nat)
    | Stopping(failed: bool)
    | Stopped

  datatype Emission = Emission(value: Option<Value>, answers: Option<nat>)

  datatype System = System(
    frames: seq<Frame>,
    nextSequence: nat,
    outPump: Pump,
    inPump: Pump,
    childOut: seq<Emission>,
    answered: set<nat>,
    events: seq<Event>,
    consumed: nat,
    order: Order,
    correlator: State,
    records: seq<Record>,
    errors: seq<OrderError>)

  const START_SYSTEM: System :=
    System([], 0, Idle, Idle, [], {}, [], 0, EMPTY, START, [], [])

  datatype Step =
    | AgentSends(value: Option<Value>, observedMs: nat)
    | ChildAnswers(request: nat, response: Value)
    | ChildEmits(value: Option<Value>)
    | ChildRead(observedMs: nat)
    | ReserveFrame(direction: Direction)
    | WriteFrame(direction: Direction)
    | WriteFails(direction: Direction, delivered: bool, failed: bool)
    | PostForwarded(direction: Direction, selfUs: nat)
    | StopPump(direction: Direction, failed: bool)
    | PostFinished(direction: Direction)
    | Consume

  function PumpOf(s: System, d: Direction): Pump { if d.Outbound? then s.outPump else s.inPump }

  function WithPump(s: System, d: Direction, p: Pump): System {
    if d.Outbound? then s.(outPump := p) else s.(inPump := p)
  }

  /** The id a frame asks for an answer under. */
  function RequestKey(m: Metadata): Option<string> {
    if m.direction.Outbound? && m.value.Some? && IsRequest(m.value.value) then IdKey(m.value.value) else None
  }

  /** A message the correlator would match against its pending requests. */
  predicate IsKeyedResponse(v: Option<Value>) {
    v.Some? && IsResponse(v.value) && IdKey(v.value).Some?
  }

  /** The agent may already have seen an answer to request `q`. */
  ghost predicate AnswerDelivered(frames: seq<Frame>, q: nat) {
    exists m :: 0 <= m < |frames| && frames[m].answers == Some(q) && frames[m].delivered
  }

  /** JSON-RPC 2.0, section 4: an id is not reused while its request is outstanding. */
  ghost predicate KeyIsFree(frames: seq<Frame>, key: string) {
    forall q :: 0 <= q < |frames| && RequestKey(frames[q].metadata) == Some(key) ==> AnswerDelivered(frames, q)
  }

  // ------------------------------------------------------------------ steps

  ghost predicate Enabled(s: System, step: Step) {
    match step
    case AgentSends(value, ms) =>
      && s.outPump.Idle?
      && var key := RequestKey(Metadata(Outbound, value, ms));
         key.Some? ==> KeyIsFree(s.frames, key.value)
    case ChildAnswers(q, value) =>
      && q < |s.frames| && s.frames[q].delivered && q !in s.answered
      && RequestKey(s.frames[q].metadata).Some?
      && IsResponse(value) && IdKey(value) == RequestKey(s.frames[q].metadata)
    case ChildEmits(value) => !IsKeyedResponse(value)
    case ChildRead(_) => s.inPump.Idle? && s.childOut != []
    case ReserveFrame(d) => PumpOf(s, d).Holding?
    case WriteFrame(d) => PumpOf(s, d).Reserving? && PumpOf(s, d).n < |s.frames|
    case WriteFails(d, _, _) => PumpOf(s, d).Reserving? && PumpOf(s, d).n < |s.frames|
    case PostForwarded(d, _) => PumpOf(s, d).Forwarding? && PumpOf(s, d).n < |s.frames|
    case StopPump(d, _) => !PumpOf(s, d).Stopping? && !PumpOf(s, d).Stopped?
    case PostFinished(d) => PumpOf(s, d).Stopping?
    case Consume => s.consumed < |s.events| && KeepsMetadata(s.order.pending)
  }

  function Deliver(frames: seq<Frame>, n: nat): seq<Frame>
    requires n < |frames|
  {
    frames[n := frames[n].(delivered := true)]
  }

  ghost function Perform(s: System, step: Step): System
    requires Enabled(s, step)
  {
    match step
    case AgentSends(value, ms) => s.(outPump := Holding(value, ms, None))
    case ChildAnswers(q, value) =>
      s.(childOut := s.childOut + [Emission(Some(value), Some(q))], answered := s.answered + {q})
    case ChildEmits(value) => s.(childOut := s.childOut + [Emission(value, None)])
    case ChildRead(ms) =>
      s.(inPump := Holding(s.childOut[0].value, ms, s.childOut[0].answers), childOut := s.childOut[1..])
    case ReserveFrame(d) =>
      var p := PumpOf(s, d);
      var metadata := Metadata(d, p.value, p.observedMs);
      WithPump(s, d, Reserving(s.nextSequence)).(
        frames := s.frames + [Frame(metadata, p.answers, false, None)],
        nextSequence := s.nextSequence + 1,
        events := s.events + [ReservedEvent(s.nextSequence, metadata)])
    case WriteFrame(d) =>
      var n := PumpOf(s, d).n;
      WithPump(s, d, Forwarding(n)).(frames := Deliver(s.frames, n))
    case WriteFails(d, delivered, failed) =>
      var n := PumpOf(s, d).n;
      WithPump(s, d, Stopping(failed)).(frames := if delivered then Deliver(s.frames, n) else s.frames)
    case PostForwarded(d, us) =>
      var n := PumpOf(s, d).n;
      WithPump(s, d, Idle).(
        frames := s.frames[n := s.frames[n].(posted := Some(us))],
        events := s.events + [ForwardedEvent(n, us)])
    case StopPump(d, failed) => WithPump(s, d, Stopping(failed))
    case PostFinished(d) =>
      WithPump(s, d, Stopped).(events := s.events + [FinishedEvent(d, PumpOf(s, d).failed)])
    case Consume =>
      var (order, frames, error) := Handle(s.order, s.events[s.consumed]);
      var (correlator, records) := FeedAll(s.correlator, frames);
      s.(consumed := s.consumed + 1, order := order, correlator := correlator, records := s.records + records,
         errors := s.errors + if error.Some? then [error.value] else [])
  }

  /** Every state some interleaving reaches. */
  ghost predicate Reaches(steps: seq<Step>, s: System)
    decreases |steps|
  {
    if steps == [] then s == START_SYSTEM
    else
      var n := |steps| - 1;
      exists before :: Reaches(steps[..n], before) && Enabled(before, steps[n]) && s == Perform(before, steps[n])
  }

  // ------------------------------------------------- what every step keeps

  /** The ledger of everything the pumps have posted. */
  function LedgerOf(frames: seq<Frame>, outStopped: bool, inStopped: bool): (r: seq<Entry>)
    ensures |r| == |frames|
  {
    seq(|frames|, i requires 0 <= i < |frames| =>
      Entry(frames[i].metadata,
            if frames[i].posted.Some? then Done(frames[i].posted.value)
            else if (if frames[i].metadata.direction.Outbound? then outStopped else inStopped) then Lost
            else Open))
  }

  function Ledger(s: System): seq<Entry> { LedgerOf(s.frames, s.outPump.Stopped?, s.inPump.Stopped?) }

  /** The ledger a log of events builds, or none when one was not allowed. */
  function LedgerAfter(events: seq<Event>): Option<seq<Entry>> {
    if events == [] then Some([])
    else
      var n := |events| - 1;
      match LedgerAfter(events[..n])
      case None => None
      case Some(ledger) => if Allowed(ledger, events[n]) then Some(Post(ledger, events[n])) else None
  }

  /** A frame of direction `d` that was not completed is the one its pump is
      working on, or the last its stopped pump ever took. */
  ghost predicate PumpAgrees(frames: seq<Frame>, d: Direction, p: Pump) {
    && ((p.Reserving? || p.Forwarding?) ==>
          && p.n < |frames| && frames[p.n].metadata.direction == d && frames[p.n].posted.None?
          && (p.Forwarding? ==> frames[p.n].delivered))
    && (forall i :: 0 <= i < |frames| && frames[i].metadata.direction == d && frames[i].posted.None? ==>
          && !p.Idle? && !p.Holding?
          && (p.Reserving? || p.Forwarding? ==> i == p.n)
          && forall j :: i < j < |frames| ==> frames[j].metadata.direction != d)
  }

  /** Every recorded answer follows the request it answers and carries its id. */
  ghost predicate AnswersFollow(frames: seq<Frame>) {
    && (forall m :: 0 <= m < |frames| && frames[m].answers.Some? ==>
          AnswerFits(frames, m, frames[m].metadata.direction, frames[m].metadata.value, frames[m].answers.value))
    && (forall m :: 0 <= m < |frames| && frames[m].answers.None? && frames[m].metadata.direction.Inbound? ==>
          !IsKeyedResponse(frames[m].metadata.value))
  }

  ghost predicate AnswerFits(frames: seq<Frame>, limit: nat, d: Direction, value: Option<Value>, q: nat) {
    && d.Inbound? && q < limit <= |frames|
    && RequestKey(frames[q].metadata).Some?
    && IsKeyedResponse(value) && IdKey(value.value) == RequestKey(frames[q].metadata)
  }

  /** No request is answered twice, wherever the answers are by now. */
  ghost predicate AnsweredOnce(s: System) {
    && (forall i, j :: 0 <= i < j < |s.frames| && s.frames[i].answers.Some? ==>
          s.frames[i].answers != s.frames[j].answers)
    && (forall i :: 0 <= i < |s.frames| && s.frames[i].answers.Some? ==> s.frames[i].answers.value in s.answered)
    && (forall i, j :: 0 <= i < j < |s.childOut| && s.childOut[i].answers.Some? ==>
          s.childOut[i].answers != s.childOut[j].answers)
    && (forall i :: 0 <= i < |s.childOut| && s.childOut[i].answers.Some? ==> s.childOut[i].answers.value in s.answered)
    && (forall i, j :: 0 <= i < |s.frames| && 0 <= j < |s.childOut| && s.frames[i].answers.Some? ==>
          s.frames[i].answers != s.childOut[j].answers)
    && (s.inPump.Holding? && s.inPump.answers.Some? ==>
          && s.inPump.answers.value in s.answered
          && (forall i :: 0 <= i < |s.frames| ==> s.frames[i].answers != s.inPump.answers)
          && (forall j :: 0 <= j < |s.childOut| ==> s.childOut[j].answers != s.inPump.answers))
  }

  /** What the child has said but the shim not yet reserved also fits. */
  ghost predicate PipelineFits(s: System) {
    && (forall j :: 0 <= j < |s.childOut| ==> EmissionFits(s.frames, s.childOut[j].value, s.childOut[j].answers))
    && (s.inPump.Holding? ==> EmissionFits(s.frames, s.inPump.value, s.inPump.answers))
    && (s.outPump.Holding? ==> s.outPump.answers.None?)
  }

  ghost predicate EmissionFits(frames: seq<Frame>, value: Option<Value>, answers: Option<nat>) {
    if answers.Some? then AnswerFits(frames, |frames|, Inbound, value, answers.value)
    else !IsKeyedResponse(value)
  }

  /** Between two requests with one id lies a delivered answer to the first. */
  ghost predicate ReuseIsSeparated(frames: seq<Frame>) {
    forall a, b :: 0 <= a < b < |frames| && SameKey(frames[a].metadata, frames[b].metadata) ==>
      AnsweredBetween(frames, a, b)
  }

  predicate SameKey(a: Metadata, b: Metadata) {
    RequestKey(a).Some? && RequestKey(a) == RequestKey(b)
  }

  ghost predicate AnsweredBetween(frames: seq<Frame>, a: int, b: int)
    requires 0 <= a < b <= |frames|
  {
    exists m :: a < m < b && frames[m].answers == Some(a)
  }

  ghost predicate HeldKeyIsFree(frames: seq<Frame>, p: Pump) {
    p.Holding? ==>
      var key := RequestKey(Metadata(Outbound, p.value, p.observedMs));
      key.Some? ==> KeyIsFree(frames, key.value)
  }

  ghost predicate HistoryInv(s: System) {
    && s.nextSequence == |s.frames|
    && PumpAgrees(s.frames, Outbound, s.outPump)
    && PumpAgrees(s.frames, Inbound, s.inPump)
    && AnswersFollow(s.frames)
    && AnsweredOnce(s)
    && PipelineFits(s)
    && ReuseIsSeparated(s.frames)
    && HeldKeyIsFree(s.frames, s.outPump)
  }

  ghost predicate EventInv(s: System) {
    LedgerAfter(s.events) == Some(Ledger(s))
  }

  /** The consumer has turned the posted events `ledger` came from into records. */
  ghost predicate CaughtUpWith(s: System, ledger: seq<Entry>) {
    && Waits(s.order, ledger)
    && FeedAll(START, CompletedOf(ledger[..s.order.nextReady])) == (s.correlator, s.records)
  }

  ghost predicate ConsumerInv(s: System) {
    && s.consumed <= |s.events|
    && LedgerAfter(s.events[..s.consumed]).Some?
    && CaughtUpWith(s, LedgerAfter(s.events[..s.consumed]).value)
    && s.errors == []
  }

  // --------------------------------------------------------- history is kept

  predicate OutsideStep(step: Step) {
    step.AgentSends? || step.ChildAnswers? || step.ChildEmits? || step.ChildRead?
  }

  lemma {:induction false} HistoryKeptOutside(s: System, step: Step)
    requires HistoryInv(s) && Enabled(s, step) && OutsideStep(step)
    ensures HistoryInv(Perform(s, step))
  {
    match step {
      case AgentSends(_, _) => KeptBySend(s, step);
      case ChildAnswers(_, _) => KeptByAnswer(s, step);
      case ChildEmits(_) => KeptByEmit(s, step);
      case ChildRead(_) => KeptByRead(s, step);
    }
  }

  predicate FrameStep(step: Step) {
    step.ReserveFrame? || step.WriteFrame? || step.WriteFails? || step.PostForwarded?
  }

  lemma {:induction false} HistoryKeptByFrames(s: System, step: Step)
    requires HistoryInv(s) && Enabled(s, step) && FrameStep(step)
    ensures HistoryInv(Perform(s, step))
  {
    match step {
      case ReserveFrame(d) => KeptByReserve(s, d);
      case WriteFrame(d) => KeptByDelivery(s, Perform(s, step), d);
      case WriteFails(d, _, _) => KeptByDelivery(s, Perform(s, step), d);
      case PostForwarded(d, us) => KeptByPost(s, d, us);
    }
  }

  lemma {:induction false} HistoryKept(s: System, step: Step)
    requires HistoryInv(s) && Enabled(s, step)
    ensures HistoryInv(Perform(s, step))
  {
    if OutsideStep(step) {
      HistoryKeptOutside(s, step);
    } else if FrameStep(step) {
      HistoryKeptByFrames(s, step);
    } else {
      KeptByPast(s, Perform(s, step));
    }
  }

  lemma {:induction false} KeptBySend(s: System, step: Step)
    requires HistoryInv(s) && Enabled(s, step) && step.AgentSends?
    ensures HistoryInv(Perform(s, step))
  {
    var t := Perform(s, step);
    assert PumpAgrees(s.frames, Outbound, t.outPump);
    assert AnsweredOnce(t) && PipelineFits(t);
  }

  lemma {:induction false} KeptByEmit(s: System, step: Step)
    requires HistoryInv(s) && Enabled(s, step) && step.ChildEmits?
    ensures HistoryInv(Perform(s, step))
  {
    EmitKeepsOnce(s, step);
    EmitFits(s, step);
  }

  lemma {:induction false} EmitKeepsOnce(s: System, step: Step)
    requires AnsweredOnce(s) && Enabled(s, step) && step.ChildEmits?
    ensures AnsweredOnce(Perform(s, step))
  {
  }

  lemma {:induction false} EmitFits(s: System, step: Step)
    requires PipelineFits(s) && Enabled(s, step) && step.ChildEmits?
    ensures PipelineFits(Perform(s, step))
  {
  }

  lemma {:induction false} KeptByAnswer(s: System, step: Step)
    requires HistoryInv(s) && Enabled(s, step) && step.ChildAnswers?
    ensures HistoryInv(Perform(s, step))
  {
    var t := Perform(s, step);
    AnswerKeepsOnce(s, step);
    assert PipelineFits(t);
  }

  lemma {:induction false} AnswerKeepsOnce(s: System, step: Step)
    requires AnsweredOnce(s) && Enabled(s, step) && step.ChildAnswers?
    ensures AnsweredOnce(Perform(s, step))
  {
  }

  lemma {:induction false} KeptByRead(s: System, step: Step)
    requires HistoryInv(s) && Enabled(s, step) && step.ChildRead?
    ensures HistoryInv(Perform(s, step))
  {
    var t := Perform(s, step);
    assert forall j :: 0 <= j < |t.childOut| ==> t.childOut[j] == s.childOut[j + 1];
    assert EmissionFits(s.frames, s.childOut[0].value, s.childOut[0].answers);
    assert AnsweredOnce(t);
    assert PipelineFits(t);
  }

  lemma {:induction false} KeptByReserve(s: System, d: Direction)
    requires HistoryInv(s) && Enabled(s, ReserveFrame(d))
    ensures HistoryInv(Perform(s, ReserveFrame(d)))
  {
    var t := Perform(s, ReserveFrame(d));
    var p := PumpOf(s, d);
    var x := Frame(Metadata(d, p.value, p.observedMs), p.answers, false, None);
    assert t.frames == s.frames + [x];
    var e := if d.Outbound? then Inbound else Outbound;
    PumpAgreesAppend(s.frames, x, d, e, p, PumpOf(s, e));
    FollowAppend(s.frames, x);
    ReuseAppend(s.frames, x);
    OnceAppend(s, t, d);
    PipelineAppend(s, t, d);
    if d.Inbound? && s.outPump.Holding? {
      FreeAppend(s.frames, x);
    }
  }

  lemma {:induction false} PumpAgreesAppend(frames: seq<Frame>, x: Frame, d: Direction, e: Direction, p: Pump, q: Pump)
    requires PumpAgrees(frames, d, p) && PumpAgrees(frames, e, q) && p.Holding? && d != e
    requires x.metadata.direction == d && x.posted.None?
    ensures PumpAgrees(frames + [x], d, Reserving(|frames|)) && PumpAgrees(frames + [x], e, q)
  {
  }

  lemma {:induction false} FollowAppend(frames: seq<Frame>, x: Frame)
    requires AnswersFollow(frames)
    requires x.metadata.direction.Outbound? ==> x.answers.None?
    requires x.metadata.direction.Inbound? ==> EmissionFits(frames, x.metadata.value, x.answers)
    ensures AnswersFollow(frames + [x])
  {
    var g := frames + [x];
    forall m | 0 <= m < |g| && g[m].answers.Some?
      ensures AnswerFits(g, m, g[m].metadata.direction, g[m].metadata.value, g[m].answers.value)
    {
      assert m < |frames| ==>
        AnswerFits(frames, m, frames[m].metadata.direction, frames[m].metadata.value, frames[m].answers.value);
    }
  }

  lemma {:induction false} ReuseAppend(frames: seq<Frame>, x: Frame)
    requires ReuseIsSeparated(frames) && AnswersFollow(frames)
    requires RequestKey(x.metadata).Some? ==> KeyIsFree(frames, RequestKey(x.metadata).value)
    ensures ReuseIsSeparated(frames + [x])
  {
    var g, n := frames + [x], |frames|;
    forall a, b | 0 <= a < b < |g| && SameKey(g[a].metadata, g[b].metadata) ensures AnsweredBetween(g, a, b) {
      if b < n {
        assert AnsweredBetween(frames, a, b);
        var m :| a < m < b && frames[m].answers == Some(a);
        assert g[m].answers == Some(a);
      } else {
        assert AnswerDelivered(frames, a);
        var m :| 0 <= m < n && frames[m].answers == Some(a) && frames[m].delivered;
        assert AnswerFits(frames, m, frames[m].metadata.direction, frames[m].metadata.value, a);
        assert g[m].answers == Some(a);
      }
    }
  }

  lemma {:induction false} FreeAppend(frames: seq<Frame>, x: Frame)
    requires x.metadata.direction.Inbound?
    ensures forall key :: KeyIsFree(frames, key) ==> KeyIsFree(frames + [x], key)
  {
    var g := frames + [x];
    forall key | KeyIsFree(frames, key) ensures KeyIsFree(g, key) {
      forall q: nat | q < |g| && RequestKey(g[q].metadata) == Some(key) ensures AnswerDelivered(g, q) {
        assert AnswerDelivered(frames, q);
        var m :| 0 <= m < |frames| && frames[m].answers == Some(q) && frames[m].delivered;
        assert g[m].answers == Some(q) && g[m].delivered;
      }
    }
  }

  lemma {:induction false} OnceAppend(s: System, t: System, d: Direction)
    requires HistoryInv(s) && Enabled(s, ReserveFrame(d)) && t == Perform(s, ReserveFrame(d))
    ensures AnsweredOnce(t)
  {
    var n := |s.frames|;
    assert forall i :: 0 <= i < n ==> t.frames[i] == s.frames[i];
    assert t.frames[n].answers == PumpOf(s, d).answers;
  }

  lemma {:induction false} PipelineAppend(s: System, t: System, d: Direction)
    requires HistoryInv(s) && Enabled(s, ReserveFrame(d)) && t == Perform(s, ReserveFrame(d))
    ensures PipelineFits(t)
  {
    forall v, a | EmissionFits(s.frames, v, a) ensures EmissionFits(t.frames, v, a) {
    }
  }

  /** Delivery changes no metadata and no answer. */
  lemma {:induction false} KeptByDelivery(s: System, t: System, d: Direction)
    requires HistoryInv(s) && PumpOf(s, d).Reserving?
    requires PumpOf(t, d).Forwarding? || PumpOf(t, d).Stopping?
    requires PumpOf(t, d).Forwarding? ==>
               PumpOf(t, d).n == PumpOf(s, d).n && t.frames == Deliver(s.frames, PumpOf(s, d).n)
    requires t == WithPump(s, d, PumpOf(t, d)).(frames := t.frames)
    requires t.frames == s.frames || t.frames == Deliver(s.frames, PumpOf(s, d).n)
    ensures HistoryInv(t)
  {
    assert SamePast(s.frames, t.frames);
    assert forall i :: 0 <= i < |s.frames| ==> t.frames[i].posted == s.frames[i].posted;
    KeptByPast(s, t);
  }

  lemma {:induction false} KeptByPost(s: System, d: Direction, us: nat)
    requires HistoryInv(s) && Enabled(s, PostForwarded(d, us))
    ensures HistoryInv(Perform(s, PostForwarded(d, us)))
  {
    var t := Perform(s, PostForwarded(d, us));
    var n := PumpOf(s, d).n;
    assert SamePast(s.frames, t.frames);
    assert forall i :: 0 <= i < |s.frames| && i != n ==> t.frames[i] == s.frames[i];
    KeptByPast(s, t);
  }

  /** Same frames and answers; some may since have been delivered. */
  ghost predicate SamePast(f: seq<Frame>, g: seq<Frame>) {
    && |f| == |g|
    && forall i :: 0 <= i < |f| ==>
         f[i].metadata == g[i].metadata && f[i].answers == g[i].answers && (f[i].delivered ==> g[i].delivered)
  }

  lemma {:induction false} KeptByPast(s: System, t: System)
    requires HistoryInv(s) && SamePast(s.frames, t.frames)
    requires t.childOut == s.childOut && t.answered == s.answered && t.nextSequence == s.nextSequence
    requires t.inPump.Holding? ==> t.inPump == s.inPump
    requires t.outPump.Holding? ==> t.outPump == s.outPump
    requires PumpAgrees(t.frames, Outbound, t.outPump) && PumpAgrees(t.frames, Inbound, t.inPump)
    ensures HistoryInv(t)
  {
    PastKeepsFollow(s.frames, t.frames);
    PastKeepsReuse(s.frames, t.frames);
    PastKeepsFree(s.frames, t.frames);
    assert AnsweredOnce(t);
    assert PipelineFits(t);
  }

  lemma {:induction false} PastKeepsFollow(f: seq<Frame>, g: seq<Frame>)
    requires SamePast(f, g) && AnswersFollow(f)
    ensures AnswersFollow(g)
    ensures forall v, a :: EmissionFits(f, v, a) ==> EmissionFits(g, v, a)
  {
    forall m | 0 <= m < |g| && g[m].answers.Some?
      ensures AnswerFits(g, m, g[m].metadata.direction, g[m].metadata.value, g[m].answers.value)
    {
      assert AnswerFits(f, m, f[m].metadata.direction, f[m].metadata.value, f[m].answers.value);
    }
  }

  lemma {:induction false} PastKeepsReuse(f: seq<Frame>, g: seq<Frame>)
    requires SamePast(f, g) && ReuseIsSeparated(f)
    ensures ReuseIsSeparated(g)
  {
    forall a, b | 0 <= a < b < |g| && SameKey(g[a].metadata, g[b].metadata) ensures AnsweredBetween(g, a, b) {
      assert AnsweredBetween(f, a, b);
      var m :| a < m < b && f[m].answers == Some(a);
      assert g[m].answers == Some(a);
    }
  }

  lemma {:induction false} PastKeepsFree(f: seq<Frame>, g: seq<Frame>)
    requires SamePast(f, g)
    ensures forall key :: KeyIsFree(f, key) ==> KeyIsFree(g, key)
  {
    forall key | KeyIsFree(f, key) ensures KeyIsFree(g, key) {
      forall q: nat | q < |g| && RequestKey(g[q].metadata) == Some(key) ensures AnswerDelivered(g, q) {
        assert AnswerDelivered(f, q);
        var m :| 0 <= m < |f| && f[m].answers == Some(q) && f[m].delivered;
        assert g[m].answers == Some(q) && g[m].delivered;
      }
    }
  }

  // ----------------------------------------------------- events are allowed

  lemma {:induction false} LedgerSnoc(events: seq<Event>, e: Event)
    ensures LedgerAfter(events).Some? && Allowed(LedgerAfter(events).value, e) ==>
              LedgerAfter(events + [e]) == Some(Post(LedgerAfter(events).value, e))
  {
    assert (events + [e])[..|events|] == events;
  }

  lemma {:induction false} LedgerOfPrefix(events: seq<Event>, n: nat)
    requires n <= |events| && LedgerAfter(events).Some?
    ensures LedgerAfter(events[..n]).Some?
  {
    if n < |events| {
      assert events[..|events| - 1][..n] == events[..n];
      LedgerOfPrefix(events[..|events| - 1], n);
    } else {
      assert events[..n] == events;
    }
  }

  /** Every event a pump posts is one the protocol allows: the four errors of
      the reorder buffer cannot occur. */
  lemma {:induction false} EventsKept(s: System, step: Step)
    requires HistoryInv(s) && EventInv(s) && Enabled(s, step)
    ensures EventInv(Perform(s, step))
  {
    match step {
      case ReserveFrame(d) => EventsKeptByReserve(s, d);
      case PostForwarded(d, us) => EventsKeptByPost(s, d, us);
      case PostFinished(d) => EventsKeptByFinish(s, d);
      case WriteFrame(d) => LedgerSame(s, Perform(s, step));
      case WriteFails(d, _, _) => LedgerSame(s, Perform(s, step));
      case StopPump(d, _) => LedgerSame(s, Perform(s, step));
      case _ => LedgerSame(s, Perform(s, step));
    }
  }

  lemma {:induction false} LedgerSame(s: System, t: System)
    requires EventInv(s) && t.events == s.events && |t.frames| == |s.frames|
    requires forall i :: 0 <= i < |s.frames| ==>
      t.frames[i].metadata == s.frames[i].metadata && t.frames[i].posted == s.frames[i].posted
    requires t.outPump.Stopped? == s.outPump.Stopped? && t.inPump.Stopped? == s.inPump.Stopped?
    ensures EventInv(t)
  {
    assert Ledger(t) == Ledger(s);
  }

  lemma {:induction false} EventsKeptByReserve(s: System, d: Direction)
    requires HistoryInv(s) && EventInv(s) && Enabled(s, ReserveFrame(d))
    ensures EventInv(Perform(s, ReserveFrame(d)))
  {
    var t := Perform(s, ReserveFrame(d));
    var e := ReservedEvent(s.nextSequence, Metadata(d, PumpOf(s, d).value, PumpOf(s, d).observedMs));
    LedgerSnoc(s.events, e);
    assert Post(Ledger(s), e) == Ledger(t);
  }

  lemma {:induction false} EventsKeptByPost(s: System, d: Direction, us: nat)
    requires HistoryInv(s) && EventInv(s) && Enabled(s, PostForwarded(d, us))
    ensures EventInv(Perform(s, PostForwarded(d, us)))
  {
    var t := Perform(s, PostForwarded(d, us));
    var e := ForwardedEvent(PumpOf(s, d).n, us);
    assert Ledger(s)[PumpOf(s, d).n].status.Open?;
    LedgerSnoc(s.events, e);
    assert Post(Ledger(s), e) == Ledger(t);
  }

  lemma {:induction false} EventsKeptByFinish(s: System, d: Direction)
    requires HistoryInv(s) && EventInv(s) && Enabled(s, PostFinished(d))
    ensures EventInv(Perform(s, PostFinished(d)))
  {
    var t := Perform(s, PostFinished(d));
    var e := FinishedEvent(d, PumpOf(s, d).failed);
    LedgerSnoc(s.events, e);
    assert Post(Ledger(s), e) == Ledger(t);
  }

  lemma {:induction false} ConsumerKept(s: System, step: Step)
    requires HistoryInv(s) && EventInv(s) && ConsumerInv(s) && Enabled(s, step)
    ensures ConsumerInv(Perform(s, step))
  {
    if step.Consume? {
      ConsumerAdvances(s);
    } else {
      ConsumerUntouched(s, Perform(s, step));
    }
  }

  lemma {:induction false} ConsumerUntouched(s: System, t: System)
    requires ConsumerInv(s) && s.events <= t.events && t.consumed == s.consumed && t.errors == s.errors
    requires t.order == s.order && t.correlator == s.correlator && t.records == s.records
    ensures ConsumerInv(t)
  {
    assert t.events[..t.consumed] == s.events[..s.consumed];
  }

  lemma {:induction false} ConsumerAdvances(s: System)
    requires EventInv(s) && ConsumerInv(s) && s.consumed < |s.events|
    ensures Enabled(s, Consume) && ConsumerInv(Perform(s, Consume))
  {
    var ledger := LedgerAfter(s.events[..s.consumed]).value;
    var e := s.events[s.consumed];
    assert s.events[..s.consumed + 1] == s.events[..s.consumed] + [e];
    assert s.events[..s.consumed + 1][..s.consumed] == s.events[..s.consumed];
    LedgerOfPrefix(s.events, s.consumed + 1);
    assert Allowed(ledger, e);
    HandleRefines(s.order, ledger, e);
    var t := Perform(s, Consume);
    var frames := Handle(s.order, e).1;
    FeedAllConcat(START, CompletedOf(ledger[..s.order.nextReady]), frames);
    assert CaughtUpWith(t, Post(ledger, e));
  }

  ghost predicate Inv(s: System) { HistoryInv(s) && EventInv(s) && ConsumerInv(s) }

  lemma {:induction false} ReachableInv(steps: seq<Step>, s: System)
    requires Reaches(steps, s)
    ensures Inv(s)
    decreases |steps|
  {
    if steps != [] {
      var n := |steps| - 1;
      var before :| Reaches(steps[..n], before) && Enabled(before, steps[n]) && s == Perform(before, steps[n]);
      ReachableInv(steps[..n], before);
      HistoryKept(before, steps[n]);
      EventsKept(before, steps[n]);
      ConsumerKept(before, steps[n]);
    }
  }

  // --------------------------------------------- what the records amount to

  ghost predicate AnswersInRange(frames: seq<Frame>) {
    forall i :: 0 <= i < |frames| && frames[i].answers.Some? ==> frames[i].answers.value < i
  }

  /** The record frame `i` gives rise to, read off the history alone: no pending
      table, no event, no order of completion. */
  ghost function RecordFor(frames: seq<Frame>, i: nat, seqNo: nat): Option<Record>
    requires i < |frames| && AnswersInRange(frames)
  {
    var f := frames[i];
    if f.posted.None? then None
    else match f.metadata.value
      case None => Some(UnparsedRecord(seqNo, f.metadata.direction))
      case Some(v) =>
        if f.metadata.direction.Outbound? then None
        else if f.answers.Some? then
          var q := frames[f.answers.value];
          if q.posted.Some? && RequestKey(q.metadata).Some?
          then
            Some(CallRecord(seqNo, PendingFor(q.metadata.value.value, q.metadata.observedMs), v, f.metadata.observedMs))
          else None
        else if IdKey(v).Some? || MethodOf(v).None? then None
        else Some(Record(seqNo, MethodOf(v).value, None, None, NotificationOutcome))
  }

  /** The records of the first `k` frames, numbered in reservation order. */
  ghost function Expected(frames: seq<Frame>, k: nat): seq<Record>
    requires k <= |frames| && AnswersInRange(frames)
  {
    if k == 0 then []
    else
      var front := Expected(frames, k - 1);
      var record := RecordFor(frames, k - 1, |front| + 1);
      front + if record.Some? then [record.value] else []
  }

  /** The completed frames among the first `k`. */
  function PostedFrames(frames: seq<Frame>, k: nat): seq<Completed>
    requires k <= |frames|
  {
    if k == 0 then []
    else
      PostedFrames(frames, k - 1)
      + if frames[k - 1].posted.Some? then [Completed(frames[k - 1].metadata, frames[k - 1].posted.value)] else []
  }

  /** A pump gives up at most its last frame. */
  ghost predicate Sequential(frames: seq<Frame>) {
    forall i, j :: 0 <= i < j < |frames| && frames[i].metadata.direction == frames[j].metadata.direction ==>
      frames[i].posted.Some?
  }

  ghost predicate UniqueAnswers(frames: seq<Frame>) {
    forall i, j :: 0 <= i < j < |frames| && frames[i].answers.Some? ==> frames[i].answers != frames[j].answers
  }

  ghost predicate Disciplined(frames: seq<Frame>) {
    && AnswersFollow(frames) && AnswersInRange(frames) && UniqueAnswers(frames)
    && ReuseIsSeparated(frames) && Sequential(frames)
  }

  /** Request `q` is what a response with its id would be matched against after
      `k` frames: completed, unanswered, and the latest with that id. */
  ghost predicate Live(frames: seq<Frame>, k: nat, q: nat)
    requires k <= |frames|
  {
    && q < k && frames[q].posted.Some? && RequestKey(frames[q].metadata).Some?
    && (forall m :: q < m < k && frames[m].posted.Some? ==> frames[m].answers != Some(q))
    && (forall b :: q < b < k && frames[b].posted.Some? ==> !SameKey(frames[q].metadata, frames[b].metadata))
  }

  /** The pending-table slot of a request. */
  function SlotOf(m: Metadata): string {
    Slot("", if RequestKey(m).Some? then RequestKey(m).value else "")
  }

  /** What the pending table holds for a request. */
  function Waiting(m: Metadata): Pending {
    if RequestKey(m).Some? then PendingFor(m.value.value, m.observedMs) else Pending("", None, 0)
  }

  ghost predicate PendingIs(frames: seq<Frame>, k: nat, pending: map<string, Pending>)
    requires k <= |frames|
  {
    && (forall q: nat :: Live(frames, k, q) ==>
          SlotOf(frames[q].metadata) in pending && pending[SlotOf(frames[q].metadata)] == Waiting(frames[q].metadata))
    && (forall slot :: slot in pending ==>
          exists q: nat :: Live(frames, k, q) && slot == SlotOf(frames[q].metadata))
  }

  lemma {:induction false} SlotsTellKeys(a: Metadata, b: Metadata)
    requires RequestKey(a).Some? && RequestKey(b).Some?
    ensures SlotOf(a) == SlotOf(b) <==> SameKey(a, b)
  {
    SlotsAreDistinct("", RequestKey(a).value, "", RequestKey(b).value);
  }

  lemma {:induction false} AnswerPrecedesReuse(frames: seq<Frame>, k: nat, q: nat, b: nat)
    requires Disciplined(frames) && q < b < |frames| && k < |frames| && frames[k].answers == Some(q)
    requires SameKey(frames[q].metadata, frames[b].metadata)
    ensures k < b
  {
    assert AnsweredBetween(frames, q, b);
    var m :| q < m < b && frames[m].answers == Some(q);
  }

  /** When the answer to a completed request comes up, that request is live and
      is the only live one with its id. */
  lemma {:induction false} AnswerMeetsRequest(frames: seq<Frame>, k: nat, q: nat)
    requires Disciplined(frames) && k < |frames| && frames[k].answers == Some(q)
    requires frames[q].posted.Some?
    ensures Live(frames, k, q)
    ensures forall p: nat :: Live(frames, k, p) && SameKey(frames[p].metadata, frames[q].metadata) ==> p == q
  {
    assert AnswerFits(frames, k, frames[k].metadata.direction, frames[k].metadata.value, q);
    forall b | q < b < k ensures !SameKey(frames[q].metadata, frames[b].metadata) {
      if SameKey(frames[q].metadata, frames[b].metadata) {
        AnswerPrecedesReuse(frames, k, q, b);
      }
    }
    forall p: nat | Live(frames, k, p) && SameKey(frames[p].metadata, frames[q].metadata) ensures p == q {
      assert SameKey(frames[q].metadata, frames[p].metadata);
    }
  }

  /** When the request was never completed, nothing with its id is live. */
  lemma {:induction false} AnswerMeetsNothing(frames: seq<Frame>, k: nat, q: nat, p: nat)
    requires Disciplined(frames) && k < |frames| && frames[k].answers == Some(q)
    requires frames[q].posted.None? && Live(frames, k, p)
    ensures !SameKey(frames[p].metadata, frames[q].metadata)
  {
    assert AnswerFits(frames, k, frames[k].metadata.direction, frames[k].metadata.value, q);
    if SameKey(frames[p].metadata, frames[q].metadata) && p < q {
      EarlierWasAnswered(frames, k, p, q);
    }
  }

  lemma {:induction false} EarlierWasAnswered(frames: seq<Frame>, k: nat, p: nat, q: nat)
    requires Disciplined(frames) && p < q < k < |frames| && SameKey(frames[p].metadata, frames[q].metadata)
    requires frames[k].metadata.direction.Inbound?
    ensures exists m :: p < m < k && frames[m].posted.Some? && frames[m].answers == Some(p)
  {
    assert AnsweredBetween(frames, p, q);
    var m :| p < m < q && frames[m].answers == Some(p);
    assert AnswerFits(frames, m, frames[m].metadata.direction, frames[m].metadata.value, p);
  }

  lemma {:induction false} LiveAfterOther(frames: seq<Frame>, k: nat, q: nat)
    requires k < |frames|
    requires frames[k].posted.None? || (frames[k].answers.None? && RequestKey(frames[k].metadata).None?)
    ensures Live(frames, k + 1, q) <==> Live(frames, k, q)
  {
  }

  lemma {:induction false} LiveAfterRequest(frames: seq<Frame>, k: nat, q: nat)
    requires k < |frames| && frames[k].posted.Some? && frames[k].answers.None?
    requires RequestKey(frames[k].metadata).Some?
    ensures Live(frames, k + 1, q) <==>
              q == k || (Live(frames, k, q) && !SameKey(frames[q].metadata, frames[k].metadata))
  {
  }

  lemma {:induction false} LiveAfterAnswer(frames: seq<Frame>, k: nat, q: nat)
    requires k < |frames| && frames[k].posted.Some? && frames[k].answers.Some?
    requires RequestKey(frames[k].metadata).None? && frames[k].answers.value < k
    ensures Live(frames, k + 1, q) <==> Live(frames, k, q) && frames[k].answers != Some(q)
  {
  }

  lemma {:induction false} KeepPending(frames: seq<Frame>, k: nat, pending: map<string, Pending>)
    requires k < |frames| && PendingIs(frames, k, pending)
    requires frames[k].posted.None? || (frames[k].answers.None? && RequestKey(frames[k].metadata).None?)
    ensures PendingIs(frames, k + 1, pending)
  {
    forall q: nat ensures Live(frames, k + 1, q) <==> Live(frames, k, q) { LiveAfterOther(frames, k, q); }
  }

  lemma {:induction false} InsertPending(frames: seq<Frame>, k: nat, pending: map<string, Pending>)
    requires k < |frames| && PendingIs(frames, k, pending)
    requires frames[k].posted.Some? && frames[k].answers.None? && RequestKey(frames[k].metadata).Some?
    ensures PendingIs(frames, k + 1, pending[SlotOf(frames[k].metadata) := Waiting(frames[k].metadata)])
  {
    var own := frames[k].metadata;
    var after := pending[SlotOf(own) := Waiting(own)];
    forall q: nat | Live(frames, k + 1, q)
      ensures SlotOf(frames[q].metadata) in after && after[SlotOf(frames[q].metadata)] == Waiting(frames[q].metadata)
    {
      LiveAfterRequest(frames, k, q);
      SlotsTellKeys(frames[q].metadata, own);
    }
    forall slot | slot in after
      ensures exists q: nat :: Live(frames, k + 1, q) && slot == SlotOf(frames[q].metadata)
    {
      if slot == SlotOf(own) {
        LiveAfterRequest(frames, k, k);
      } else {
        var q: nat :| Live(frames, k, q) && slot == SlotOf(frames[q].metadata);
        SlotsTellKeys(frames[q].metadata, own);
        LiveAfterRequest(frames, k, q);
      }
    }
  }

  /** Frame `k` answers request `q0`, the one live request under its id. */
  ghost predicate Closes(frames: seq<Frame>, k: nat, q0: nat) {
    && k < |frames| && frames[k].posted.Some? && frames[k].answers == Some(q0) && q0 < k
    && RequestKey(frames[k].metadata).None? && RequestKey(frames[q0].metadata).Some?
    && forall p: nat :: Live(frames, k, p) && SameKey(frames[p].metadata, frames[q0].metadata) ==> p == q0
  }

  lemma {:induction false} OthersStayPending(frames: seq<Frame>, k: nat, pending: map<string, Pending>, q0: nat, q: nat)
    requires Closes(frames, k, q0) && PendingIs(frames, k, pending) && Live(frames, k + 1, q)
    ensures SlotOf(frames[q].metadata) in pending - {SlotOf(frames[q0].metadata)}
    ensures pending[SlotOf(frames[q].metadata)] == Waiting(frames[q].metadata)
  {
    LiveAfterAnswer(frames, k, q);
    SlotsTellKeys(frames[q].metadata, frames[q0].metadata);
  }

  lemma {:induction false} RemovePending(frames: seq<Frame>, k: nat, pending: map<string, Pending>, q0: nat)
    requires Closes(frames, k, q0) && PendingIs(frames, k, pending)
    ensures PendingIs(frames, k + 1, pending - {SlotOf(frames[q0].metadata)})
  {
    var after := pending - {SlotOf(frames[q0].metadata)};
    forall q: nat | Live(frames, k + 1, q)
      ensures SlotOf(frames[q].metadata) in after && after[SlotOf(frames[q].metadata)] == Waiting(frames[q].metadata)
    {
      OthersStayPending(frames, k, pending, q0, q);
    }
    forall slot | slot in after
      ensures exists q: nat :: Live(frames, k + 1, q) && slot == SlotOf(frames[q].metadata)
    {
      var q: nat :| Live(frames, k, q) && slot == SlotOf(frames[q].metadata);
      LiveAfterAnswer(frames, k, q);
    }
  }

  /** Feeding one more completed frame makes the record the history says, and
      keeps the pending table at the live requests. */
  lemma {:induction false} FeedFrame(frames: seq<Frame>, k: nat, c: State)
    requires Disciplined(frames) && k < |frames| && frames[k].posted.Some?
    requires PendingIs(frames, k, c.pending)
    ensures
      var (d, record) := Feed(c, Completed(frames[k].metadata, frames[k].posted.value));
      && record == RecordFor(frames, k, c.seqNo + 1)
      && d.seqNo == c.seqNo + (if record.Some? then 1 else 0)
      && PendingIs(frames, k + 1, d.pending)
  {
    var f := frames[k];
    if f.answers.None? {
      FeedUnanswering(frames, k, c);
    } else {
      var q := f.answers.value;
      assert q < k by {
        assert AnswerFits(frames, k, f.metadata.direction, f.metadata.value, q);
      }
      if frames[q].posted.Some? {
        FeedAnswer(frames, k, c, q);
      } else {
        FeedOrphan(frames, k, c, q);
      }
    }
  }

  /** A frame that answers nothing: a request, or one that is only recorded. */
  lemma {:induction false} FeedUnanswering(frames: seq<Frame>, k: nat, c: State)
    requires Disciplined(frames) && k < |frames| && frames[k].posted.Some? && frames[k].answers.None?
    requires PendingIs(frames, k, c.pending)
    ensures
      var (d, record) := Feed(c, Completed(frames[k].metadata, frames[k].posted.value));
      && record == RecordFor(frames, k, c.seqNo + 1)
      && d.seqNo == c.seqNo + (if record.Some? then 1 else 0)
      && PendingIs(frames, k + 1, d.pending)
  {
    if RequestKey(frames[k].metadata).Some? {
      InsertPending(frames, k, c.pending);
    } else {
      KeepPending(frames, k, c.pending);
    }
  }

  lemma {:induction false} FeedAnswer(frames: seq<Frame>, k: nat, c: State, q: nat)
    requires Disciplined(frames) && k < |frames| && frames[k].posted.Some?
    requires PendingIs(frames, k, c.pending)
    requires frames[k].answers == Some(q) && frames[q].posted.Some?
    ensures
      var (d, record) := Feed(c, Completed(frames[k].metadata, frames[k].posted.value));
      && record == RecordFor(frames, k, c.seqNo + 1) && record.Some?
      && d.seqNo == c.seqNo + 1 && PendingIs(frames, k + 1, d.pending)
  {
    assert AnswerFits(frames, k, frames[k].metadata.direction, frames[k].metadata.value, q);
    AnswerMeetsRequest(frames, k, q);
    RemovePending(frames, k, c.pending, q);
    MatchedFeed(c, frames[k].metadata, frames[k].posted.value, frames[q].metadata);
  }

  /** A keyed response whose request is pending closes it. */
  lemma {:induction false} MatchedFeed(c: State, m: Metadata, us: nat, q: Metadata)
    requires m.direction.Inbound? && IsKeyedResponse(m.value) && RequestKey(q) == IdKey(m.value.value)
    requires SlotOf(q) in c.pending
    ensures Feed(c, Completed(m, us)) ==
              (State(c.seqNo + 1, c.pending - {SlotOf(q)}),
               Some(CallRecord(c.seqNo + 1, c.pending[SlotOf(q)], m.value.value, m.observedMs)))
  {
  }

  lemma {:induction false} FeedOrphan(frames: seq<Frame>, k: nat, c: State, q: nat)
    requires Disciplined(frames) && k < |frames| && frames[k].posted.Some?
    requires PendingIs(frames, k, c.pending)
    requires frames[k].answers == Some(q) && frames[q].posted.None?
    ensures
      var (d, record) := Feed(c, Completed(frames[k].metadata, frames[k].posted.value));
      && record == RecordFor(frames, k, c.seqNo + 1) && record.None?
      && d == c && PendingIs(frames, k + 1, c.pending)
  {
    assert AnswerFits(frames, k, frames[k].metadata.direction, frames[k].metadata.value, q);
    forall p: nat | Live(frames, k, p) ensures !SameKey(frames[p].metadata, frames[q].metadata) {
      AnswerMeetsNothing(frames, k, q, p);
    }
    var slot := SlotOf(frames[q].metadata);
    if slot in c.pending {
      var p: nat :| Live(frames, k, p) && slot == SlotOf(frames[p].metadata);
      SlotsTellKeys(frames[p].metadata, frames[q].metadata);
    }
    RemovePending(frames, k, c.pending, q);
    assert c.pending - {slot} == c.pending;
  }

  /** The correlator after the first `k` frames: the records are the expected
      ones, and exactly the live requests are pending. */
  ghost predicate ExactAt(frames: seq<Frame>, k: nat)
    requires k <= |frames| && AnswersInRange(frames)
  {
    var fed := FeedAll(START, PostedFrames(frames, k));
    && fed.1 == Expected(frames, k)
    && fed.0.seqNo == |fed.1|
    && PendingIs(frames, k, fed.0.pending)
  }

  /** Feeding the completed frames in reservation order is exact. */
  lemma {:induction false} CorrelationIsExact(frames: seq<Frame>, k: nat)
    requires Disciplined(frames) && k <= |frames|
    ensures ExactAt(frames, k)
  {
    if k == 0 {
      ExactAtStart(frames);
    } else {
      var before := k - 1;
      CorrelationIsExact(frames, before);
      ExactNext(frames, before);
      assert k == before + 1;
    }
  }

  lemma {:induction false} ExactAtStart(frames: seq<Frame>)
    requires AnswersInRange(frames)
    ensures ExactAt(frames, 0)
  {
    assert FeedAll(START, PostedFrames(frames, 0)) == (START, []);
  }

  lemma {:induction false} ExactNext(frames: seq<Frame>, k: nat)
    requires Disciplined(frames) && k < |frames| && ExactAt(frames, k)
    ensures ExactAt(frames, k + 1)
  {
    if frames[k].posted.None? {
      ExactSkip(frames, k);
    } else {
      ExactStep(frames, k);
    }
  }

  lemma {:induction false} ExactSkip(frames: seq<Frame>, k: nat)
    requires Disciplined(frames) && k < |frames| && frames[k].posted.None? && ExactAt(frames, k)
    ensures ExactAt(frames, k + 1)
  {
    SkipAddsNothing(frames, k);
    KeepPending(frames, k, FeedAll(START, PostedFrames(frames, k)).0.pending);
  }

  lemma {:induction false} SkipAddsNothing(frames: seq<Frame>, k: nat)
    requires k < |frames| && AnswersInRange(frames) && frames[k].posted.None?
    ensures PostedFrames(frames, k + 1) == PostedFrames(frames, k)
    ensures Expected(frames, k + 1) == Expected(frames, k)
  {
    assert RecordFor(frames, k, |Expected(frames, k)| + 1).None?;
  }

  lemma {:induction false} ExactStep(frames: seq<Frame>, k: nat)
    requires Disciplined(frames) && k < |frames| && frames[k].posted.Some? && ExactAt(frames, k)
    ensures ExactAt(frames, k + 1)
  {
    FeedFrame(frames, k, FeedAll(START, PostedFrames(frames, k)).0);
    FeedSnoc(PostedFrames(frames, k), Completed(frames[k].metadata, frames[k].posted.value));
  }

  lemma {:induction false} FeedSnoc(a: seq<Completed>, x: Completed)
    ensures
      var (c, records) := FeedAll(START, a);
      var (d, record) := Feed(c, x);
      FeedAll(START, a + [x]) == (d, records + if record.Some? then [record.value] else [])
  {
    assert (a + [x])[..|a + [x]| - 1] == a;
  }

  // ------------------------------------------------------------ the main result

  /** Closed entries keep their verdict as more events are posted. */
  lemma {:induction false} LedgerGrows(events: seq<Event>, n: nat)
    requires n <= |events| && LedgerAfter(events).Some? && LedgerAfter(events[..n]).Some?
    ensures
      var a, b := LedgerAfter(events[..n]).value, LedgerAfter(events).value;
      && |a| <= |b|
      && forall i :: 0 <= i < |a| ==>
           a[i].metadata == b[i].metadata && (a[i].status.Open? || a[i].status == b[i].status)
  {
    if n < |events| {
      var front := events[..|events| - 1];
      assert front[..n] == events[..n];
      LedgerGrows(front, n);
    } else {
      assert events[..n] == events;
    }
  }

  lemma {:induction false} ReleasedArePosted(s: System, ledger: seq<Entry>, r: nat)
    requires r <= |ledger| <= |s.frames|
    requires forall i :: 0 <= i < r ==>
      && !ledger[i].status.Open? && ledger[i] == Ledger(s)[i]
    ensures CompletedOf(ledger[..r]) == PostedFrames(s.frames, r)
  {
    if r > 0 {
      ReleasedArePosted(s, ledger, r - 1);
      CompletedNext(ledger, r - 1);
    }
  }

  lemma {:induction false} InvDisciplined(s: System)
    requires HistoryInv(s)
    ensures Disciplined(s.frames)
  {
    forall i | 0 <= i < |s.frames| && s.frames[i].answers.Some? ensures s.frames[i].answers.value < i {
      assert AnswerFits(s.frames, i, s.frames[i].metadata.direction, s.frames[i].metadata.value,
                        s.frames[i].answers.value);
    }
  }

  /** In every reachable state, whatever the interleaving and whichever
      completion event came first: the buffer has raised no error, and the
      records stored are exactly those of the frames released so far, matched
      request to answer as the child meant them. */
  lemma {:induction false} RecordsAreExact(steps: seq<Step>, s: System)
    requires Reaches(steps, s)
    ensures s.errors == [] && s.order.nextReady <= |s.frames| && Disciplined(s.frames)
    ensures s.records == Expected(s.frames, s.order.nextReady)
  {
    ReachableInv(steps, s);
    var ledger := LedgerAfter(s.events[..s.consumed]).value;
    LedgerGrows(s.events, s.consumed);
    InvDisciplined(s);
    ReleasedArePosted(s, ledger, s.order.nextReady);
    CorrelationIsExact(s.frames, s.order.nextReady);
  }

  /** The consumer never panics: whenever an event waits, handling it is defined. */
  lemma {:induction false} ConsumerIsNeverStuck(steps: seq<Step>, s: System)
    requires Reaches(steps, s) && s.consumed < |s.events|
    ensures Enabled(s, Consume)
  {
    ReachableInv(steps, s);
    ConsumerAdvances(s);
  }

  ghost predicate Quiet(s: System) {
    s.outPump.Stopped? && s.inPump.Stopped? && s.consumed == |s.events|
  }

  /** Once both pumps have finished and their events are consumed, nothing is
      pending and every frame has had its turn. */
  lemma {:induction false} QuietLeavesNothing(steps: seq<Step>, s: System)
    requires Reaches(steps, s) && Quiet(s)
    ensures s.order.pending == map[] && s.order.nextReady == s.order.nextReservation == |s.frames|
    ensures Disciplined(s.frames) && s.records == Expected(s.frames, |s.frames|)
  {
    ReachableInv(steps, s);
    assert s.events[..s.consumed] == s.events;
    NothingLeftBehind(s.order, Ledger(s));
    RecordsAreExact(steps, s);
  }

  lemma {:induction false} ExpectedPrefix(frames: seq<Frame>, i: nat, k: nat)
    requires i <= k <= |frames| && AnswersInRange(frames)
    ensures Expected(frames, i) <= Expected(frames, k)
  {
    if i < k {
      ExpectedPrefix(frames, i, k - 1);
    }
  }

  /** Every completed request with a completed answer has exactly one call
      record: the answer is unique, comes later, and its record stands where
      the answer's turn came. */
  lemma {:induction false} AnsweredRequestsAreRecorded(steps: seq<Step>, s: System, q: nat, m: nat)
    requires Reaches(steps, s) && Quiet(s)
    requires q < |s.frames| && m < |s.frames| && s.frames[m].answers == Some(q)
    requires s.frames[q].posted.Some? && s.frames[m].posted.Some?
    ensures q < m && RecordedOnce(s.frames, s.records, q, m)
  {
    QuietLeavesNothing(steps, s);
    AnswerIsRecorded(s.frames, q, m);
  }

  ghost predicate RecordedOnce(frames: seq<Frame>, records: seq<Record>, q: nat, m: nat)
    requires q < |frames| && m < |frames|
  {
    && AnswersInRange(frames)
    && RequestKey(frames[q].metadata).Some? && frames[m].metadata.value.Some?
    && (forall n :: 0 <= n < |frames| && frames[n].answers == Some(q) ==> n == m)
    && |Expected(frames, m)| < |records|
    && records[|Expected(frames, m)|] ==
         CallRecord(|Expected(frames, m)| + 1,
                    PendingFor(frames[q].metadata.value.value, frames[q].metadata.observedMs),
                    frames[m].metadata.value.value, frames[m].metadata.observedMs)
    && ReportsCall(records[|Expected(frames, m)|], frames[q].metadata.value.value, frames[q].metadata.observedMs,
                   frames[m].metadata.value.value, frames[m].metadata.observedMs)
  }

  lemma {:induction false} AnswerIsRecorded(f: seq<Frame>, q: nat, m: nat)
    requires Disciplined(f) && q < |f| && m < |f| && f[m].answers == Some(q)
    requires f[q].posted.Some? && f[m].posted.Some?
    ensures q < m && RecordedOnce(f, Expected(f, |f|), q, m)
  {
    assert AnswerFits(f, m, f[m].metadata.direction, f[m].metadata.value, q);
    var j := |Expected(f, m)|;
    assert RecordFor(f, m, j + 1).Some?;
    ExpectedPrefix(f, m + 1, |f|);
    assert Expected(f, |f|)[j] == Expected(f, m + 1)[j];
    CallReports(j + 1, f[q].metadata.value.value, f[q].metadata.observedMs, f[m].metadata.value.value,
                f[m].metadata.observedMs);
  }

  /** And there is no other: each call record is the record of one answer to one
      completed request. */
  lemma {:induction false} CallRecordsAreAnswers(frames: seq<Frame>, k: nat, j: nat) returns (m: nat)
    requires Disciplined(frames) && k <= |frames| && j < |Expected(frames, k)|
    requires Expected(frames, k)[j].latencyMs.Some?
    ensures m < k && |Expected(frames, m)| == j
    ensures frames[m].posted.Some? && frames[m].answers.Some? && frames[frames[m].answers.value].posted.Some?
  {
    if j < |Expected(frames, k - 1)| {
      m := CallRecordsAreAnswers(frames, k - 1, j);
    } else {
      m := k - 1;
    }
  }

  /** What the record of a frame says, told from the frames alone: of a line that
      is no message its direction, of an answer the call, of a notification its
      method. */
  ghost predicate Reports(r: Record, frames: seq<Frame>, m: nat)
    requires m < |frames| && AnswersInRange(frames)
  {
    var f := frames[m];
    match f.metadata.value
    case None =>
      && r.method_ == (if f.metadata.direction.Inbound? then "unparsed/inbound" else "unparsed/outbound")
      && r.tool.None? && r.latencyMs.None? && r.outcome == UnparsedOutcome
    case Some(v) =>
      && f.metadata.direction.Inbound?
      && if f.answers.Some? then
           var q := frames[f.answers.value];
           && q.posted.Some? && q.metadata.direction.Outbound? && q.metadata.value.Some?
           && ReportsCall(r, q.metadata.value.value, q.metadata.observedMs, v, f.metadata.observedMs)
         else
           && Get(v, "method") == Some(Str(r.method_)) && !HasId(v)
           && r.tool.None? && r.latencyMs.None? && r.outcome == NotificationOutcome
  }

  lemma {:induction false} RecordReports(frames: seq<Frame>, m: nat, seqNo: nat)
    requires m < |frames| && AnswersInRange(frames) && RecordFor(frames, m, seqNo).Some?
    ensures RecordFor(frames, m, seqNo).value.seqNo == seqNo && Reports(RecordFor(frames, m, seqNo).value, frames, m)
  {
    var f := frames[m];
    if f.metadata.value.Some? {
      MessagesMean(f.metadata.value.value, f.metadata.value.value);
      if f.answers.Some? {
        var q := frames[f.answers.value].metadata;
        CallReports(seqNo, q.value.value, q.observedMs, f.metadata.value.value, f.metadata.observedMs);
      }
    }
  }

  lemma {:induction false} ExpectedReports(frames: seq<Frame>, k: nat, j: nat) returns (m: nat)
    requires k <= |frames| && AnswersInRange(frames) && j < |Expected(frames, k)|
    ensures m < k && frames[m].posted.Some? && |Expected(frames, m)| == j
    ensures Expected(frames, k)[j].seqNo == j + 1 && Reports(Expected(frames, k)[j], frames, m)
  {
    if j < |Expected(frames, k - 1)| {
      m := ExpectedReports(frames, k - 1, j);
    } else {
      m := k - 1;
      RecordReports(frames, m, j + 1);
    }
  }

  /** In every reachable state each record stored is numbered by its place and
      says of its frame what the frame says. */
  lemma {:induction false} StoredRecordsReport(steps: seq<Step>, s: System, j: nat) returns (m: nat)
    requires Reaches(steps, s) && j < |s.records|
    ensures m < s.order.nextReady <= |s.frames| && AnswersInRange(s.frames) && s.frames[m].posted.Some?
    ensures |Expected(s.frames, m)| == j
    ensures s.records[j].seqNo == j + 1 && Reports(s.records[j], s.frames, m)
  {
    RecordsAreExact(steps, s);
    m := ExpectedReports(s.frames, s.order.nextReady, j);
  }

  // ------------------------------------------------------ the overtaking run

  lemma {:induction false} ReachNext(steps: seq<Step>, s: System, step: Step)
    requires Reaches(steps, s) && Enabled(s, step)
    ensures Reaches(steps + [step], Perform(s, step))
  {
    assert (steps + [step])[..|steps|] == steps;
  }

  lemma {:induction false} RequestOnItsWay(request: Value) returns (steps: seq<Step>, s: System)
    requires IsRequest(request)
    ensures Reaches(steps, s)
    ensures
      var sent := Metadata(Outbound, Some(request), 0);
      s == START_SYSTEM.(frames := [Frame(sent, None, true, None)], nextSequence := 1, outPump := Forwarding(0),
                         events := [ReservedEvent(0, sent)])
  {
    steps, s := [], START_SYSTEM;
    ReachNext(steps, s, AgentSends(Some(request), 0));
    steps, s := steps + [AgentSends(Some(request), 0)], Perform(s, AgentSends(Some(request), 0));
    ReachNext(steps, s, ReserveFrame(Outbound));
    steps, s := steps + [ReserveFrame(Outbound)], Perform(s, ReserveFrame(Outbound));
    ReachNext(steps, s, WriteFrame(Outbound));
    steps, s := steps + [WriteFrame(Outbound)], Perform(s, WriteFrame(Outbound));
  }

  lemma {:induction false} AnswerOnItsWay(request: Value, response: Value) returns (steps: seq<Step>, s: System)
    requires IsRequest(request) && IsResponse(response) && IdKey(response) == IdKey(request)
    ensures Reaches(steps, s)
    ensures s.outPump == Forwarding(0) && s.inPump == Holding(Some(response), 0, Some(0)) && s.nextSequence == 1
    ensures |s.frames| == 1 && |s.events| == 1
  {
    steps, s := RequestOnItsWay(request);
    ReachNext(steps, s, ChildAnswers(0, response));
    steps, s := steps + [ChildAnswers(0, response)], Perform(s, ChildAnswers(0, response));
    ReachNext(steps, s, ChildRead(0));
    steps, s := steps + [ChildRead(0)], Perform(s, ChildRead(0));
  }

  lemma {:induction false} BothWritten(request: Value, response: Value) returns (steps: seq<Step>, s: System)
    requires IsRequest(request) && IsResponse(response) && IdKey(response) == IdKey(request)
    ensures Reaches(steps, s)
    ensures s.outPump == Forwarding(0) && s.inPump == Forwarding(1)
    ensures |s.frames| == 2 && s.frames[1].answers == Some(0) && |s.events| == 2
  {
    steps, s := AnswerOnItsWay(request, response);
    ReachNext(steps, s, ReserveFrame(Inbound));
    steps, s := steps + [ReserveFrame(Inbound)], Perform(s, ReserveFrame(Inbound));
    ReachNext(steps, s, WriteFrame(Inbound));
    steps, s := steps + [WriteFrame(Inbound)], Perform(s, WriteFrame(Inbound));
  }

  /** The race is real: for any request and answer there is a run in which the
      answer is completed before the request is. */
  lemma {:induction false} AnswerCanOvertake(request: Value, response: Value) returns (steps: seq<Step>, s: System)
    requires IsRequest(request) && IsResponse(response) && IdKey(response) == IdKey(request)
    ensures Reaches(steps, s) && |s.frames| == 2 && s.frames[1].answers == Some(0)
    ensures |s.events| == 4 && s.events[2] == ForwardedEvent(1, 0) && s.events[3] == ForwardedEvent(0, 0)
  {
    steps, s := BothWritten(request, response);
    ReachNext(steps, s, PostForwarded(Inbound, 0));
    steps, s := steps + [PostForwarded(Inbound, 0)], Perform(s, PostForwarded(Inbound, 0));
    ReachNext(steps, s, PostForwarded(Outbound, 0));
    steps, s := steps + [PostForwarded(Outbound, 0)], Perform(s, PostForwarded(Outbound, 0));
  }
}
