/** The shared request budget (src/evaluation_budget.rs): any number of threads
    around one relaxed atomic counter and one relaxed flag. A load may return
    any value the counter has held, as long as a thread never reads backwards;
    a weak compare-exchange may fail for no reason. */
module EvaluationBudget {
  import opened Common

  datatype Refusal = DeadlinePassed | AlreadyDenied | LimitReached

  /** Where a thread is inside `acquire`. */
  datatype Point = Outside | Checked | Trying(count: nat) | Granted | Refused(why: Refusal)

  /** `seen` is the latest counter value the thread has read or written. */
  datatype Thread = Thread(point: Point, seen: nat, sawDenied: bool)

  datatype State = State(limit: nat, requests: nat, denied: bool, late: bool, threads: seq<Thread>)

  datatype Step =
    | Tick
    | Check(t: nat, seesDenied: bool)
    | Load(t: nat, value: nat)
    | HitLimit(t: nat)
    | Exchange(t: nat)
    | Miss(t: nat, current: nat)
    | Leave(t: nat)

  function Start(limit: nat, threads: nat): State {
    State(limit, 0, false, false, seq(threads, i => Thread(Outside, 0, false)))
  }

  predicate Enabled(s: State, step: Step) {
    match step
    case Tick => true
    case Check(t, sees) =>
      && t < |s.threads| && s.threads[t].point.Outside?
      && (sees ==> s.denied) && (s.threads[t].sawDenied ==> sees)
    case Load(t, v) =>
      t < |s.threads| && s.threads[t].point.Checked? && s.threads[t].seen <= v <= s.requests
    case HitLimit(t) =>
      t < |s.threads| && s.threads[t].point.Trying? && s.threads[t].point.count >= s.limit
    case Exchange(t) =>
      && t < |s.threads| && s.threads[t].point.Trying? && s.threads[t].point.count < s.limit
      && s.requests == s.threads[t].point.count
    case Miss(t, v) =>
      && t < |s.threads| && s.threads[t].point.Trying? && s.threads[t].point.count < s.limit
      && s.threads[t].point.count <= v <= s.requests
    case Leave(t) =>
      t < |s.threads| && (s.threads[t].point.Granted? || s.threads[t].point.Refused?)
  }

  function Perform(s: State, step: Step): State
    requires Enabled(s, step)
  {
    match step
    case Tick => s.(late := true)
    case Check(t, sees) =>
      var p := if s.late then Refused(DeadlinePassed) else if sees then Refused(AlreadyDenied) else Checked;
      s.(threads := s.threads[t := s.threads[t].(point := p, sawDenied := s.threads[t].sawDenied || sees)])
    case Load(t, v) => s.(threads := s.threads[t := s.threads[t].(point := Trying(v), seen := v)])
    case HitLimit(t) =>
      s.(denied := true,
         threads := s.threads[t := s.threads[t].(point := Refused(LimitReached), sawDenied := true)])
    case Exchange(t) =>
      s.(requests := s.requests + 1,
         threads := s.threads[t := s.threads[t].(point := Granted, seen := s.requests + 1)])
    case Miss(t, v) => s.(threads := s.threads[t := s.threads[t].(point := Trying(v), seen := v)])
    case Leave(t) => s.(threads := s.threads[t := s.threads[t].(point := Outside)])
  }

  /** The state a schedule leads to, when every step of it can happen. */
  function Run(s: State, steps: seq<Step>): Option<State> {
    if steps == [] then Some(s)
    else
      var n := |steps| - 1;
      match Run(s, steps[..n])
      case None => None
      case Some(mid) => if Enabled(mid, steps[n]) then Some(Perform(mid, steps[n])) else None
  }

  /** How many requests a schedule granted. */
  function Grants(steps: seq<Step>): nat {
    if steps == [] then 0
    else Grants(steps[..|steps| - 1]) + if steps[|steps| - 1].Exchange? then 1 else 0
  }

  ghost predicate Inv(s: State, steps: seq<Step>) {
    && s.requests == Grants(steps) && s.requests <= s.limit
    && (s.denied ==> s.requests == s.limit)
    && forall t :: 0 <= t < |s.threads| ==>
         && s.threads[t].seen <= s.requests
         && (s.threads[t].sawDenied ==> s.denied)
         && (s.threads[t].point.Trying? ==> s.threads[t].point.count == s.threads[t].seen)
         && (s.threads[t].point == Refused(LimitReached) ==> s.denied)
         && (s.threads[t].point == Refused(AlreadyDenied) ==> s.denied)
  }

  lemma {:induction false} RunInv(limit: nat, threads: nat, steps: seq<Step>)
    requires Run(Start(limit, threads), steps).Some?
    ensures Inv(Run(Start(limit, threads), steps).value, steps)
    ensures Run(Start(limit, threads), steps).value.limit == limit
    ensures |Run(Start(limit, threads), steps).value.threads| == threads
  {
    if steps != [] {
      var n := |steps| - 1;
      RunInv(limit, threads, steps[..n]);
      StepInv(Run(Start(limit, threads), steps[..n]).value, steps);
    }
  }

  lemma {:induction false} StepInv(s: State, steps: seq<Step>)
    requires steps != [] && Inv(s, steps[..|steps| - 1]) && Enabled(s, steps[|steps| - 1])
    ensures
      var after := Perform(s, steps[|steps| - 1]);
      Inv(after, steps) && after.limit == s.limit && |after.threads| == |s.threads|
  {
  }

  /** Under every schedule the counter is the number of grants and never passes
      the limit, and a refusal for want of budget happens only at the limit. */
  lemma {:induction false} GrantsWithinLimit(limit: nat, threads: nat, steps: seq<Step>)
    requires Run(Start(limit, threads), steps).Some?
    ensures
      var s := Run(Start(limit, threads), steps).value;
      && s.requests == Grants(steps) <= limit
      && (s.denied ==> Grants(steps) == limit)
      && forall t :: 0 <= t < |s.threads| && s.threads[t].point == Refused(LimitReached) ==> Grants(steps) == limit
  {
    RunInv(limit, threads, steps);
  }

  lemma {:induction false} GrantsGrow(steps: seq<Step>, n: nat)
    requires n <= |steps|
    ensures Grants(steps[..n]) <= Grants(steps)
  {
    if n < |steps| {
      assert steps[..|steps| - 1][..n] == steps[..n];
      GrantsGrow(steps[..|steps| - 1], n);
    } else {
      assert steps[..n] == steps;
    }
  }

  lemma {:induction false} RunPrefix(s: State, steps: seq<Step>, n: nat)
    requires n <= |steps| && Run(s, steps).Some?
    ensures Run(s, steps[..n]).Some?
    ensures Run(s, steps[..n]).value.denied ==> Run(s, steps).value.denied
    ensures n < |steps| ==> Enabled(Run(s, steps[..n]).value, steps[n])
  {
    if n < |steps| {
      var front := steps[..|steps| - 1];
      assert front[..n] == steps[..n];
      RunPrefix(s, front, n);
    } else {
      assert steps[..n] == steps;
    }
  }

  /** Denial is final: once any thread has been denied, no acquire is granted,
      not even one already under way with a stale count. */
  lemma {:induction false} DenialIsFinal(limit: nat, threads: nat, steps: seq<Step>, n: nat)
    requires n <= |steps| && Run(Start(limit, threads), steps).Some?
    requires Run(Start(limit, threads), steps[..n]).Some?
    requires Run(Start(limit, threads), steps[..n]).value.denied
    ensures Grants(steps) == Grants(steps[..n]) == limit
    ensures forall j :: n <= j < |steps| ==> !steps[j].Exchange?
  {
    var init := Start(limit, threads);
    RunInv(limit, threads, steps[..n]);
    RunInv(limit, threads, steps);
    RunPrefix(init, steps, n);
    forall j | n <= j < |steps| ensures !steps[j].Exchange? {
      RunPrefix(init, steps, j);
      RunInv(limit, threads, steps[..j]);
      assert steps[..j][..n] == steps[..n];
      RunPrefix(init, steps[..j], n);
    }
  }

  /** The step that took the counter past `c`. */
  lemma {:induction false} GrantAt(steps: seq<Step>, c: nat) returns (j: nat)
    requires c < Grants(steps)
    ensures j < |steps| && steps[j].Exchange? && Grants(steps[..j]) == c
  {
    var n := |steps| - 1;
    if c < Grants(steps[..n]) {
      j := GrantAt(steps[..n], c);
      assert steps[..n][..j] == steps[..j];
    } else {
      j := n;
    }
  }

  /** A thread remembers its own grants: it never reads below them again. */
  lemma {:induction false} OwnGrantsAreSeen(limit: nat, threads: nat, steps: seq<Step>, j: nat)
    requires Run(Start(limit, threads), steps).Some?
    requires j < |steps| && steps[j].Exchange? && steps[j].t < threads
    ensures |Run(Start(limit, threads), steps).value.threads| == threads
    ensures Run(Start(limit, threads), steps).value.threads[steps[j].t].seen > Grants(steps[..j])
  {
    var n := |steps| - 1;
    RunInv(limit, threads, steps);
    RunInv(limit, threads, steps[..n]);
    if j < n {
      assert steps[..n][..j] == steps[..j];
      OwnGrantsAreSeen(limit, threads, steps[..n], j);
    }
  }

  /** Lock freedom: a compare-exchange that fails with a different count fails
      because another thread was granted the request it was after. */
  lemma {:induction false} MissMeansProgress(limit: nat, threads: nat, steps: seq<Step>, t: nat,
                                             current: nat) returns (j: nat)
    requires Run(Start(limit, threads), steps).Some?
    requires Enabled(Run(Start(limit, threads), steps).value, Miss(t, current))
    requires current != Run(Start(limit, threads), steps).value.threads[t].point.count
    ensures j < |steps| && steps[j].Exchange? && steps[j].t != t
    ensures Grants(steps[..j]) == Run(Start(limit, threads), steps).value.threads[t].point.count
  {
    RunInv(limit, threads, steps);
    var s := Run(Start(limit, threads), steps).value;
    j := GrantAt(steps, s.threads[t].point.count);
    if steps[j].t == t {
      OwnGrantsAreSeen(limit, threads, steps, j);
    }
  }

  /** So retries are bounded: each one that is not spurious raises the thread's
      count, which never passes the limit. */
  lemma {:induction false} MissRaisesCount(limit: nat, threads: nat, steps: seq<Step>, t: nat, current: nat)
    requires Run(Start(limit, threads), steps).Some?
    requires Enabled(Run(Start(limit, threads), steps).value, Miss(t, current))
    ensures
      var s := Run(Start(limit, threads), steps).value;
      var p := Perform(s, Miss(t, current)).threads[t].point;
      && p.Trying? && s.threads[t].point.count <= p.count <= limit
      && (current != s.threads[t].point.count ==> s.threads[t].point.count < p.count)
  {
    RunInv(limit, threads, steps);
  }

  // ------------------------------------------------------- what a thread is told

  /** Thread `t` was just granted its request. */
  predicate WasGranted(before: State, after: State, t: nat) {
    && t < |before.threads| && t < |after.threads|
    && !before.threads[t].point.Granted? && after.threads[t].point.Granted?
  }

  predicate WasRefused(before: State, after: State, t: nat, why: Refusal) {
    && t < |before.threads| && t < |after.threads|
    && !before.threads[t].point.Refused? && after.threads[t].point == Refused(why)
  }

  /** How many times a thread was granted a request along a schedule. */
  ghost function TimesGranted(limit: nat, threads: nat, steps: seq<Step>): nat
    requires Run(Start(limit, threads), steps).Some?
  {
    if steps == [] then 0
    else
      var n := |steps| - 1;
      var before, after := Run(Start(limit, threads), steps[..n]).value, Run(Start(limit, threads), steps).value;
      TimesGranted(limit, threads, steps[..n]) + if exists t :: WasGranted(before, after, t) then 1 else 0
  }

  /** A step grants the one thread whose exchange it is, and nothing else counts a
      request; a thread is refused for the deadline once it has passed, for a
      denial once there was one, and for want of budget at the limit. */
  lemma {:induction false} StepMeans(limit: nat, threads: nat, steps: seq<Step>, step: Step, t: nat)
    requires Run(Start(limit, threads), steps).Some?
    requires Enabled(Run(Start(limit, threads), steps).value, step) && t < threads
    ensures
      var s := Run(Start(limit, threads), steps).value;
      var after := Perform(s, step);
      && |s.threads| == |after.threads| == threads
      && (WasGranted(s, after, t) <==> step == Exchange(t))
      && after.requests == s.requests + (if step.Exchange? then 1 else 0)
      && (WasRefused(s, after, t, DeadlinePassed) ==> s.late)
      && (WasRefused(s, after, t, AlreadyDenied) ==> s.denied)
      && (WasRefused(s, after, t, LimitReached) ==> s.requests == limit && after.denied)
  {
    RunInv(limit, threads, steps);
  }

  /** The way in: past the deadline a thread is refused, and so it is when it sees
      a denial; otherwise it goes on to the counter, and so it does after a miss.
      The way out leaves it free to come again. */
  lemma {:induction false} PointsMean(s: State, step: Step, t: nat)
    requires Enabled(s, step) && t < |s.threads|
    ensures
      var after := Perform(s, step).threads[t].point;
      && (forall sees :: step == Check(t, sees) ==>
            after == if s.late then Refused(DeadlinePassed) else if sees then Refused(AlreadyDenied) else Checked)
      && (forall v :: step == Load(t, v) || step == Miss(t, v) ==> after == Trying(v))
      && (step == HitLimit(t) ==> after == Refused(LimitReached))
      && (step == Exchange(t) ==> after == Point.Granted)
      && (step == Leave(t) ==> after == Outside)
    ensures step == Tick ==> Perform(s, step).late && Perform(s, step).threads == s.threads
    ensures step != Tick ==> Perform(s, step).late == s.late
    ensures forall u :: 0 <= u < |s.threads| && step != Tick && step.t != u ==>
      Perform(s, step).threads[u] == s.threads[u]
  {
  }

  /** The counter is how often a thread was granted, whatever the schedule. */
  lemma {:induction false} GrantsAreAcquired(limit: nat, threads: nat, steps: seq<Step>)
    requires Run(Start(limit, threads), steps).Some?
    ensures Run(Start(limit, threads), steps).value.requests == TimesGranted(limit, threads, steps) <= limit
  {
    RunInv(limit, threads, steps);
    if steps != [] {
      var n := |steps| - 1;
      var before, after := Run(Start(limit, threads), steps[..n]).value, Run(Start(limit, threads), steps).value;
      GrantsAreAcquired(limit, threads, steps[..n]);
      RunInv(limit, threads, steps[..n]);
      forall t: nat ensures WasGranted(before, after, t) <==> t < threads && steps[n] == Exchange(t) {
        if t < threads {
          StepMeans(limit, threads, steps[..n], steps[n], t);
        }
      }
      if steps[n].Exchange? {
        assert WasGranted(before, after, steps[n].t);
      }
    }
  }

  /** One request from beginning to end, undisturbed. */
  function Round(count: nat): seq<Step> { [Check(0, false), Load(0, count), Exchange(0), Leave(0)] }

  function Rounds(n: nat): seq<Step> { if n == 0 then [] else Rounds(n - 1) + Round(n - 1) }

  function Lone(limit: nat, count: nat): State {
    State(limit, count, false, false, [Thread(Outside, count, false)])
  }

  lemma {:induction false} RunMore(s: State, steps: seq<Step>, step: Step)
    requires Run(s, steps).Some? && Enabled(Run(s, steps).value, step)
    ensures Run(s, steps + [step]) == Some(Perform(Run(s, steps).value, step))
  {
    assert (steps + [step])[..|steps|] == steps;
  }

  /** The deadline may pass at any time, and then an acquire is refused, and so
      is the next. */
  lemma {:induction false} LateThread(limit: nat, n: nat)
    requires n <= limit
    ensures
      var late := Rounds(n) + [Tick, Check(0, false)];
      var end, again := Run(Start(limit, 1), late), Run(Start(limit, 1), late + [Leave(0), Check(0, false)]);
      && end.Some? && end.value.requests == n && |end.value.threads| == 1
      && end.value.threads[0].point == Refused(DeadlinePassed)
      && again == end
  {
    var init, steps := Start(limit, 1), Rounds(n);
    LoneThread(limit, n);
    RunMore(init, steps, Tick);
    RunMore(init, steps + [Tick], Check(0, false));
    assert steps + [Tick] + [Check(0, false)] == steps + [Tick, Check(0, false)];
    var late := steps + [Tick, Check(0, false)];
    var refused, outside := Thread(Refused(DeadlinePassed), n, false), Thread(Outside, n, false);
    assert [outside][0 := refused] == [refused] && [refused][0 := outside] == [outside];
    assert Run(init, late) == Some(Lone(limit, n).(late := true, threads := [refused]));
    RunMore(init, late, Leave(0));
    assert Run(init, late + [Leave(0)]) == Some(Lone(limit, n).(late := true, threads := [outside]));
    RunMore(init, late + [Leave(0)], Check(0, false));
    assert late + [Leave(0)] + [Check(0, false)] == late + [Leave(0), Check(0, false)];
  }

  /** A thread alone is granted every request up to the limit, one after the other,
      and denied the one after that. */
  lemma {:induction false} LoneThread(limit: nat, n: nat)
    requires n <= limit
    ensures Run(Start(limit, 1), Rounds(n)) == Some(Lone(limit, n))
    ensures n == limit ==>
      var end := Run(Start(limit, 1), Rounds(n) + [Check(0, false), Load(0, n), HitLimit(0)]);
      end.Some? && end.value.denied && |end.value.threads| == 1 && end.value.threads[0].point == Refused(LimitReached)
  {
    var init := Start(limit, 1);
    if n == 0 {
      assert init.threads == [Thread(Outside, 0, false)];
    } else {
      LoneThread(limit, n - 1);
      LoneRound(init, Rounds(n - 1), limit, n - 1);
    }
    if n == limit {
      var steps := Rounds(n);
      RunMore(init, steps, Check(0, false));
      RunMore(init, steps + [Check(0, false)], Load(0, n));
      RunMore(init, steps + [Check(0, false)] + [Load(0, n)], HitLimit(0));
      assert steps + [Check(0, false)] + [Load(0, n)] + [HitLimit(0)]
          == steps + [Check(0, false), Load(0, n), HitLimit(0)];
    }
  }

  lemma {:induction false} LoneRound(init: State, steps: seq<Step>, limit: nat, count: nat)
    requires Run(init, steps) == Some(Lone(limit, count)) && count < limit
    ensures Run(init, steps + Round(count)) == Some(Lone(limit, count + 1))
  {
    var s0, s1 := Lone(limit, count), LoneAt(limit, count, Checked);
    var s2, s3 := LoneAt(limit, count, Trying(count)), LoneAt(limit, count + 1, Point.Granted);
    LoneStep(s0, Check(0, false), s1);
    RunMore(init, steps, Check(0, false));
    var checked := steps + [Check(0, false)];
    LoneStep(s1, Load(0, count), s2);
    RunMore(init, checked, Load(0, count));
    var trying := checked + [Load(0, count)];
    LoneStep(s2, Exchange(0), s3);
    RunMore(init, trying, Exchange(0));
    var granted := trying + [Exchange(0)];
    LoneStep(s3, Leave(0), Lone(limit, count + 1));
    RunMore(init, granted, Leave(0));
    assert granted + [Leave(0)] == steps + Round(count);
  }

  function LoneAt(limit: nat, count: nat, point: Point): State {
    State(limit, count, false, false, [Thread(point, count, false)])
  }

  lemma {:induction false} LoneStep(s: State, step: Step, after: State)
    requires |s.threads| == 1 && |after.threads| == 1 && Enabled(s, step)
    requires Perform(s, step).(threads := after.threads) == after && Perform(s, step).threads[0] == after.threads[0]
    ensures Perform(s, step) == after
  {
  }
}
