/** Whole traces of promotions, with their identity migrations, and of
    verifications: what they make of a finding's row. */
module LifecycleTraces {
  import opened Common
  import opened Lifecycle
  import opened Migration

  /** One statement of a promotion. */
  datatype Change =
    | Gather(key: Key, id: string)         // the findings of a key get one identity
    | Insert(finding: string, row: Row)    // a finding is opened under its identity

  datatype Op = Promote(changes: seq<Change>) | Verify(call: Call)

  /** Which texts are run identities, and what the query for a key answers. */
  datatype Outside = Outside(isRunId: string -> bool, query: (map<string, Row>, Key) -> seq<string>)

  ghost predicate Answers(o: Outside) {
    forall rows: map<string, Row>, key: Key :: Selects(o.query(rows, key), rows, key)
  }

  /** A finding already there is left as it is. */
  function ChangeOne(e: Evidence, change: Change, o: Outside): Option<Evidence> {
    match change
    case Gather(key, id) =>
      var ids := o.query(e.rows, key);
      if Taken(e.rows, ids, id) then None else Some(Migrated(e, ids, id))
    case Insert(finding, row) =>
      if finding in e.rows then Some(e)
      else Some(e.(rows := e.rows[finding := row.(state := Open, passes := 0, probe := None, definition := None)]))
  }

  function ChangeAll(e: Evidence, changes: seq<Change>, o: Outside): Option<Evidence>
    decreases |changes|
  {
    if changes == [] then Some(e)
    else match ChangeOne(e, changes[0], o)
      case None => None
      case Some(next) => ChangeAll(next, changes[1..], o)
  }

  /** A promotion is one transaction: a statement that fails undoes it. */
  function Apply(e: Evidence, op: Op, o: Outside): Evidence {
    match op
    case Promote(changes) => var after := ChangeAll(e, changes, o); if after.Some? then after.value else e
    case Verify(call) => Record(e, call, o.isRunId).0
  }

  function ApplyAll(e: Evidence, ops: seq<Op>, o: Outside): Evidence
    decreases |ops|
  {
    if ops == [] then e else ApplyAll(Apply(e, ops[0], o), ops[1..], o)
  }

  const NOTHING := Evidence(map[], [])

  // ------------------------------------------------- the verdicts that count

  /** Of the verifications numbered in `counted`, the verdicts on one finding. */
  function VerdictsOn(history: seq<Run>, counted: set<nat>, finding: string): seq<Verdict> {
    if history == [] then []
    else
      var n := |history| - 1;
      var earlier := VerdictsOn(history[..n], counted, finding);
      if history[n].finding == finding && n in counted then earlier + [VerdictOf(history[n])] else earlier
  }

  /** Verifications of a row that a migration retires no longer count; those of
      the row it keeps do. */
  function StillCounted(e: Evidence, counted: set<nat>, change: Change, o: Outside): set<nat> {
    match change
    case Gather(key, id) =>
      var ids := o.query(e.rows, key);
      if ids == [] || ids[0] !in e.rows then counted
      else
        set k | k in counted && (k < |e.history| ==> e.history[k].finding == ids[0] || e.history[k].finding !in ids)
    case Insert(_, _) => counted
  }

  function CountChanges(e: Evidence, counted: set<nat>, changes: seq<Change>, o: Outside): set<nat>
    decreases |changes|
  {
    if changes == [] then counted
    else match ChangeOne(e, changes[0], o)
      case None => counted
      case Some(next) => CountChanges(next, StillCounted(e, counted, changes[0], o), changes[1..], o)
  }

  function CountOne(e: Evidence, counted: set<nat>, op: Op, o: Outside): set<nat> {
    match op
    case Promote(changes) => if ChangeAll(e, changes, o).None? then counted else CountChanges(e, counted, changes, o)
    case Verify(call) => if Record(e, call, o.isRunId).0 == e then counted else counted + {|e.history|}
  }

  function CountAll(e: Evidence, counted: set<nat>, ops: seq<Op>, o: Outside): set<nat>
    decreases |ops|
  {
    if ops == [] then counted else CountAll(Apply(e, ops[0], o), CountOne(e, counted, ops[0], o), ops[1..], o)
  }

  // -------------------------------------------------------------- closed form

  ghost predicate Consistent(e: Evidence, counted: set<nat>) {
    && (forall f :: f in e.rows ==> Follows(e.rows[f], VerdictsOn(e.history, counted, f)))
    && (forall i :: 0 <= i < |e.history| ==> e.history[i].finding in e.rows)
  }

  /** Every verification counts. */
  predicate AllCount(e: Evidence, counted: set<nat>) {
    forall i :: 0 <= i < |e.history| ==> i in counted
  }

  predicate GathersNothing(op: Op) { op.Promote? ==> forall i :: 0 <= i < |op.changes| ==> op.changes[i].Insert? }

  lemma {:induction false} VerdictsAgree(a: seq<Run>, b: seq<Run>, s: set<nat>, t: set<nat>, f: string, g: string)
    requires |a| == |b| && forall k :: 0 <= k < |a| ==> VerdictOf(a[k]) == VerdictOf(b[k])
    requires forall k :: 0 <= k < |a| ==> (a[k].finding == f && k in s <==> b[k].finding == g && k in t)
    ensures VerdictsOn(a, s, f) == VerdictsOn(b, t, g)
  {
    if a != [] {
      var n := |a| - 1;
      VerdictsAgree(a[..n], b[..n], s, t, f, g);
    }
  }

  lemma {:induction false} NoVerdicts(history: seq<Run>, counted: set<nat>, f: string)
    requires forall i :: 0 <= i < |history| ==> history[i].finding != f
    ensures VerdictsOn(history, counted, f) == []
  {
    if history != [] {
      NoVerdicts(history[..|history| - 1], counted, f);
    }
  }

  lemma {:induction false} RecordFollows(e: Evidence, counted: set<nat>, c: Call, f: string)
    requires Consistent(e, counted) && c.finding in e.rows && f in e.rows
    ensures
      var n := |e.history|;
      Follows(if f == c.finding then Advance(e.rows[f], c) else e.rows[f],
              VerdictsOn(e.history + [RunOf(c)], counted + {n}, f))
  {
    var n := |e.history|;
    assert (e.history + [RunOf(c)])[..n] == e.history;
    VerdictsAgree(e.history, e.history, counted, counted + {n}, f, f);
    AdvanceFollows(e.rows[f], VerdictsOn(e.history, counted, f), c);
  }

  lemma {:induction false} RecordConsistent(e: Evidence, counted: set<nat>, c: Call, isRunId: string -> bool)
    requires Consistent(e, counted) && Record(e, c, isRunId).0 != e
    ensures Consistent(Record(e, c, isRunId).0, counted + {|e.history|})
  {
    var after := Record(e, c, isRunId).0;
    assert after == Evidence(e.rows[c.finding := Advance(e.rows[c.finding], c)], e.history + [RunOf(c)]);
    forall f | f in after.rows ensures Follows(after.rows[f], VerdictsOn(after.history, counted + {|e.history|}, f)) {
      RecordFollows(e, counted, c, f);
    }
  }

  /** A migration carries on with the verdicts of the row it keeps, and leaves
      those on other findings alone. */
  lemma {:induction false} GatheredVerdicts(e: Evidence, counted: set<nat>, key: Key, id: string, o: Outside)
    requires Consistent(e, counted)
    requires
      var ids := o.query(e.rows, key);
      ids != [] && ids[0] in e.rows && !Taken(e.rows, ids, id)
    ensures
      var ids := o.query(e.rows, key);
      var after, still := Migrated(e, ids, id).history, StillCounted(e, counted, Gather(key, id), o);
      && VerdictsOn(after, still, id) == VerdictsOn(e.history, counted, ids[0])
      && forall f :: f !in ids && f != id ==> VerdictsOn(after, still, f) == VerdictsOn(e.history, counted, f)
  {
    var ids := o.query(e.rows, key);
    var after, still := Migrated(e, ids, id).history, StillCounted(e, counted, Gather(key, id), o);
    VerdictsAgree(after, e.history, still, counted, id, ids[0]);
    forall f | f !in ids && f != id ensures VerdictsOn(after, still, f) == VerdictsOn(e.history, counted, f) {
      VerdictsAgree(after, e.history, still, counted, f, f);
    }
  }

  lemma {:induction false} ChangeConsistent(e: Evidence, counted: set<nat>, change: Change, o: Outside)
    requires Consistent(e, counted) && ChangeOne(e, change, o).Some?
    ensures Consistent(ChangeOne(e, change, o).value, StillCounted(e, counted, change, o))
  {
    match change {
      case Gather(key, id) =>
        var ids := o.query(e.rows, key);
        if ids != [] && ids[0] in e.rows {
          GatheredVerdicts(e, counted, key, id, o);
        }
      case Insert(finding, row) =>
        if finding !in e.rows {
          NoVerdicts(e.history, counted, finding);
        }
    }
  }

  lemma {:induction false} ChangesConsistent(e: Evidence, counted: set<nat>, changes: seq<Change>, o: Outside)
    requires Consistent(e, counted) && ChangeAll(e, changes, o).Some?
    ensures Consistent(ChangeAll(e, changes, o).value, CountChanges(e, counted, changes, o))
    decreases |changes|
  {
    if changes != [] {
      ChangeConsistent(e, counted, changes[0], o);
      ChangesConsistent(ChangeOne(e, changes[0], o).value, StillCounted(e, counted, changes[0], o), changes[1..], o);
    }
  }

  lemma {:induction false} TraceConsistent(e: Evidence, counted: set<nat>, ops: seq<Op>, o: Outside)
    requires Consistent(e, counted)
    ensures Consistent(ApplyAll(e, ops, o), CountAll(e, counted, ops, o))
    decreases |ops|
  {
    if ops != [] {
      match ops[0] {
        case Promote(changes) =>
          if ChangeAll(e, changes, o).Some? {
            ChangesConsistent(e, counted, changes, o);
          }
        case Verify(call) =>
          if Record(e, call, o.isRunId).0 != e {
            RecordConsistent(e, counted, call, o.isRunId);
          }
      }
      TraceConsistent(Apply(e, ops[0], o), CountOne(e, counted, ops[0], o), ops[1..], o);
    }
  }

  lemma {:induction false} InsertsKeepHistory(e: Evidence, counted: set<nat>, changes: seq<Change>, o: Outside)
    requires forall i :: 0 <= i < |changes| ==> changes[i].Insert?
    ensures ChangeAll(e, changes, o).Some? && ChangeAll(e, changes, o).value.history == e.history
    ensures forall f :: f in e.rows ==> f in ChangeAll(e, changes, o).value.rows
    ensures CountChanges(e, counted, changes, o) == counted
    decreases |changes|
  {
    if changes != [] {
      assert changes[0].Insert?;
      InsertsKeepHistory(ChangeOne(e, changes[0], o).value, counted, changes[1..], o);
    }
  }

  lemma {:induction false} NothingUncounted(e: Evidence, counted: set<nat>, ops: seq<Op>, o: Outside)
    requires AllCount(e, counted) && forall i :: 0 <= i < |ops| ==> GathersNothing(ops[i])
    ensures AllCount(ApplyAll(e, ops, o), CountAll(e, counted, ops, o))
    decreases |ops|
  {
    if ops != [] {
      assert GathersNothing(ops[0]);
      if ops[0].Promote? {
        InsertsKeepHistory(e, counted, ops[0].changes, o);
      }
      NothingUncounted(Apply(e, ops[0], o), CountOne(e, counted, ops[0], o), ops[1..], o);
    }
  }

  /** Whatever was promoted, migrated and verified, in whatever order and with
      whatever replays and refusals, each finding's row is what the verdicts that
      count for it make it; without a migration all its verdicts count. */
  lemma {:induction false} ClosedForm(ops: seq<Op>, o: Outside)
    ensures
      var e, counted := ApplyAll(NOTHING, ops, o), CountAll(NOTHING, {}, ops, o);
      && (forall f :: f in e.rows ==> Follows(e.rows[f], VerdictsOn(e.history, counted, f)))
      && ((forall i :: 0 <= i < |ops| ==> GathersNothing(ops[i])) ==> AllCount(e, counted))
  {
    TraceConsistent(NOTHING, {}, ops, o);
    if forall i :: 0 <= i < |ops| ==> GathersNothing(ops[i]) {
      NothingUncounted(NOTHING, {}, ops, o);
    }
  }

  /** Closed means at least three passes in a row under one probe and
      definition; Verifying means one or two; Open means nothing counts yet, or
      one failure came right after a pass. */
  lemma {:induction false} StatesMean(ops: seq<Op>, finding: string, o: Outside)
    requires finding in ApplyAll(NOTHING, ops, o).rows
    ensures
      var e, counted := ApplyAll(NOTHING, ops, o), CountAll(NOTHING, {}, ops, o);
      var row, verdicts := e.rows[finding], VerdictsOn(e.history, counted, finding);
      && (row.state == Closed <==> Green(verdicts, 3))
      && (row.state == Verifying <==> Green(verdicts, 1) && !Green(verdicts, 3))
      && (row.state == Open <==>
            verdicts == [] || (|verdicts| > 1 && !verdicts[|verdicts| - 1].passed && verdicts[|verdicts| - 2].passed))
      && (forall k: nat :: k <= MAX_PASSES ==> (Green(verdicts, k) <==> k <= row.passes))
  {
    ClosedForm(ops, o);
    var e, counted := ApplyAll(NOTHING, ops, o), CountAll(NOTHING, {}, ops, o);
    FollowsMeans(e.rows[finding], VerdictsOn(e.history, counted, finding));
  }

  lemma {:induction false} FollowsMeans(row: Row, verdicts: seq<Verdict>)
    requires Follows(row, verdicts)
    ensures row.state == Closed <==> Green(verdicts, 3)
    ensures row.state == Verifying <==> Green(verdicts, 1) && !Green(verdicts, 3)
    ensures row.state == Open <==>
      verdicts == [] || (|verdicts| > 1 && !verdicts[|verdicts| - 1].passed && verdicts[|verdicts| - 2].passed)
    ensures forall k: nat :: k <= MAX_PASSES ==> (Green(verdicts, k) <==> k <= row.passes)
  {
    forall k: nat ensures Green(verdicts, k) <==> k <= Streak(verdicts) {
      StreakIsLongest(verdicts, k);
    }
    assert Green(verdicts, 1) <==> verdicts != [] && verdicts[|verdicts| - 1].passed;
  }

  // ------------------------------------------------------------------ replay

  /** Verifications are only ever added, and only their finding ever changes. */
  ghost predicate Keeps(a: seq<Run>, b: seq<Run>) {
    |a| <= |b| && forall i :: 0 <= i < |a| ==> b[i].(finding := a[i].finding) == a[i]
  }

  lemma {:induction false} ChangesKeep(e: Evidence, changes: seq<Change>, o: Outside)
    requires ChangeAll(e, changes, o).Some?
    ensures Keeps(e.history, ChangeAll(e, changes, o).value.history)
    decreases |changes|
  {
    if changes != [] {
      var next := ChangeOne(e, changes[0], o).value;
      assert Keeps(e.history, next.history);
      ChangesKeep(next, changes[1..], o);
    }
  }

  lemma {:induction false} TraceKeeps(e: Evidence, ops: seq<Op>, o: Outside)
    ensures Keeps(e.history, ApplyAll(e, ops, o).history)
    decreases |ops|
  {
    if ops != [] {
      var next := Apply(e, ops[0], o);
      if ops[0].Promote? && ChangeAll(e, ops[0].changes, o).Some? {
        ChangesKeep(e, ops[0].changes, o);
      }
      assert Keeps(e.history, next.history);
      TraceKeeps(next, ops[1..], o);
    }
  }

  lemma {:induction false} TraceKeepsFindings(e: Evidence, ops: seq<Op>, o: Outside)
    requires forall i :: 0 <= i < |ops| ==> GathersNothing(ops[i])
    ensures e.history <= ApplyAll(e, ops, o).history
    ensures forall f :: f in e.rows ==> f in ApplyAll(e, ops, o).rows
    decreases |ops|
  {
    if ops != [] {
      assert GathersNothing(ops[0]);
      if ops[0].Promote? {
        InsertsKeepHistory(e, {}, ops[0].changes, o);
      }
      TraceKeepsFindings(Apply(e, ops[0], o), ops[1..], o);
    }
  }

  lemma {:induction false} FindKept(a: seq<Run>, b: seq<Run>, run: string)
    requires Keeps(a, b) && Find(a, run).Some?
    ensures Find(b, run).Some? && Find(b, run).value.(finding := Find(a, run).value.finding) == Find(a, run).value
    ensures a <= b ==> Find(b, run) == Find(a, run)
  {
    if a[0].run != Some(run) {
      FindKept(a[1..], b[1..], run);
    }
  }

  lemma {:induction false} FindAdded(history: seq<Run>, r: Run, run: string)
    requires Find(history, run).None? && r.run == Some(run)
    ensures Find(history + [r], run) == Some(r)
  {
    if history != [] {
      FindAdded(history[1..], r, run);
      assert (history + [r])[1..] == history[1..] + [r];
    }
  }

  /** A run that was recorded can be sent again at any later time, whatever was
      promoted, migrated and verified since: nothing changes. The same evidence
      is acknowledged under the finding that holds the run by then, any other is
      refused. */
  lemma {:induction false} ReplayChangesNothing(e: Evidence, c: Call, ops: seq<Op>, again: Call, o: Outside)
    requires Record(e, c, o.isRunId).1.Recorded? && again.run == c.run
    ensures
      var later := ApplyAll(Record(e, c, o.isRunId).0, ops, o);
      var held, (after, answer) := Find(later.history, c.run), Record(later, again, o.isRunId);
      && held.Some? && after == later
      && (answer.Recorded? <==>
            again.(now := c.now) == c.(finding := held.value.finding) && again.finding in later.rows)
      && (answer.Recorded? ==> answer == Recorded(StatusOf(later.rows[again.finding])))
      && ((forall i :: 0 <= i < |ops| ==> GathersNothing(ops[i])) ==>
            c.finding in later.rows && held.value.finding == c.finding)
  {
    var first := Record(e, c, o.isRunId).0;
    Finding(e.history, c.run);
    assert Find(first.history, c.run).Some? && SameEvidence(Find(first.history, c.run).value, c) by {
      if Find(e.history, c.run).None? {
        FindAdded(e.history, RunOf(c), c.run);
      }
    }
    TraceKeeps(first, ops, o);
    FindKept(first.history, ApplyAll(first, ops, o).history, c.run);
    if forall i :: 0 <= i < |ops| ==> GathersNothing(ops[i]) {
      TraceKeepsFindings(first, ops, o);
    }
  }
}
