/** The evidence store: the authoritative tables, the query tables projected
    from them, and the transactions that write both (src/lifecycle.rs,
    src/promote.rs). */
module LifecycleStore {
  import opened Common
  import opened Lifecycle
  import opened LifecycleTraces
  import opened Migration

  class Store {
    var rows: map<string, Row>
    var history: seq<Run>
    var shownRows: map<string, Row>
    var shownHistory: map<nat, Run>
    var shownColumns: bool

    function Held(): Evidence
      reads this
    {
      Evidence(rows, history)
    }

    function Queried(): Shown
      reads this
    {
      Shown(shownRows, shownHistory, shownColumns)
    }

    method ProjectAll()
      modifies this`shownRows, this`shownHistory, this`shownColumns
      ensures Queried() == Project(Held())
    {
      shownRows, shownHistory, shownColumns := rows, Numbered(history), true;
    }

    method ProjectLast(finding: string)
      requires finding in rows && history != []
      modifies this`shownRows, this`shownHistory, this`shownColumns
      ensures Queried() == ProjectResult(Held(), old(Queried()), finding)
    {
      if !shownColumns {
        ProjectAll();
        return;
      }
      var row := rows[finding];
      if finding in shownRows {
        var shown := shownRows[finding];
        shownRows := shownRows[finding := shown.(probe := row.probe, definition := row.definition, state := row.state,
                                                 passes := row.passes, updatedAt := row.updatedAt)];
      } else {
        shownRows := shownRows[finding := row];
      }
      shownHistory := Adopt(shownHistory, |history| - 1, history[|history| - 1]);
    }

    /** Records one verification and shows its result. */
    method RecordRun(c: Call, isRunId: string -> bool) returns (outcome: Outcome)
      modifies this
      ensures (Held(), outcome) == Record(old(Held()), c, isRunId)
      ensures Held() == old(Held()) ==> Queried() == old(Queried())
      ensures Held() != old(Held()) ==>
        c.finding in rows && history != [] && Queried() == ProjectResult(Held(), old(Queried()), c.finding)
    {
      if !ValidIdentity(c, isRunId) {
        return Refused(InvalidIdentity);
      }
      if c.finding !in rows {
        return Refused(FindingUnavailable);
      }
      var current := rows[c.finding];
      var prior := Find(history, c.run);
      if prior.Some? {
        return if SameEvidence(prior.value, c) then Recorded(StatusOf(current)) else Refused(RunConflict);
      }
      var same := current.probe == Some(c.probe) && current.definition == Some(c.definition);
      var (state, passes) := Transition(current.state, same, Max(current.passes, 0), c.passed);
      rows := rows[c.finding := current.(probe := Some(c.probe), definition := Some(c.definition), state := state,
                                         passes := passes, updatedAt := c.now)];
      history := history + [RunOf(c)];
      ProjectLast(c.finding);
      outcome := Recorded(Status(state, Some(c.probe), passes));
    }

    /** Gathers the findings of a key under one identity, or fails and changes
        nothing when that identity is held by a finding of another key. */
    method Migrate(key: Key, id: string, ids: seq<string>) returns (ok: bool)
      requires Selects(ids, rows, key)
      modifies this`rows, this`history
      ensures ok <==> !old(Taken(rows, ids, id))
      ensures ok ==> Held() == Migrated(old(Held()), ids, id)
      ensures !ok ==> Held() == old(Held())
    {
      if forall x :: x in ids ==> x == id {
        AlreadyGathered(Held(), ids, id);
        return ids == [] || id in ids;
      }
      assert ids[0] in ids;
      var kept, moved := rows, history;
      for i := 1 to |ids|
        invariant Held() == old(Held())
        invariant moved == MovedAll(history, ids[1..i], id)
        invariant kept == rows - set x | x in ids[1..i]
      {
        MoveOne(history, ids[1..i], ids[i], id);
        moved := MovedAll(moved, [ids[i]], id);
        kept := kept - {ids[i]};
        assert ids[1..i + 1] == ids[1..i] + [ids[i]];
      }
      assert ids[1..|ids|] == ids[1..];
      Gathered(Held(), ids, id);
      if ids[0] != id {
        if id in kept {
          return false;
        }
        kept := (kept - {ids[0]})[id := kept[ids[0]]];
        MoveOne(history, ids[1..], ids[0], id);
        moved := MovedAll(moved, [ids[0]], id);
      }
      rows, history := kept, moved;
      ok := true;
    }

    /** One promotion: its statements in order and then a full rebuild of the
        query tables, or nothing at all. */
    method Promote(changes: seq<Change>, o: Outside) returns (ok: bool)
      requires Answers(o)
      modifies this
      ensures ok <==> ChangeAll(old(Held()), changes, o).Some?
      ensures ok ==> Some(Held()) == ChangeAll(old(Held()), changes, o) && Queried() == Project(Held())
      ensures !ok ==> Held() == old(Held()) && Queried() == old(Queried())
    {
      var rowsBefore, historyBefore := rows, history;
      for i := 0 to |changes|
        invariant Queried() == old(Queried())
        invariant ChangeAll(Held(), changes[i..], o) == ChangeAll(old(Held()), changes, o)
      {
        assert changes[i..][1..] == changes[i + 1..];
        match changes[i] {
          case Gather(key, id) =>
            ok := Migrate(key, id, o.query(rows, key));
            if !ok {
              rows, history := rowsBefore, historyBefore;
              return;
            }
          case Insert(finding, row) =>
            if finding !in rows {
              rows := rows[finding := row.(state := Open, passes := 0, probe := None, definition := None)];
            }
        }
      }
      ProjectAll();
      ok := true;
    }
  }

  // -------------------------------------------------------------------- laws

  datatype Tables = Tables(held: Evidence, shown: Shown)

  /** What one transaction does to all tables. */
  function Step(t: Tables, op: Op, o: Outside): Tables {
    match op
    case Promote(changes) =>
      var after := ChangeAll(t.held, changes, o);
      if after.Some? then Tables(after.value, Project(after.value)) else t
    case Verify(call) =>
      var after := Record(t.held, call, o.isRunId).0;
      if after == t.held then t else Tables(after, ProjectResult(after, t.shown, call.finding))
  }

  function StepAll(t: Tables, ops: seq<Op>, o: Outside): Tables
    decreases |ops|
  {
    if ops == [] then t else StepAll(Step(t, ops[0], o), ops[1..], o)
  }

  /** The query tables are what a rebuild gives, or lack the run columns. */
  predicate Agrees(t: Tables) { t.shown.columns ==> t.shown == Project(t.held) }

  lemma {:induction false} StepAgrees(t: Tables, op: Op, o: Outside)
    requires Agrees(t)
    ensures Step(t, op, o).held == Apply(t.held, op, o)
    ensures Step(t, op, o) == t || Step(t, op, o).shown == Project(Step(t, op, o).held)
  {
    if op.Verify? {
      var after := Record(t.held, op.call, o.isRunId).0;
      if after != t.held {
        ProjectionKeepsUp(t.held, t.shown, op.call, o.isRunId);
        assert t.shown.columns ==> AgreesButFor(t.shown, t.held, after, op.call.finding);
      }
    }
  }

  /** From any evidence, imported or migrated, whose query tables agree with it
      or predate the run columns: over any promotions, migrations and
      verifications the query tables are what a rebuild would give, as soon as
      one transaction wrote anything. */
  lemma {:induction false} AgreementHolds(t: Tables, ops: seq<Op>, o: Outside)
    requires Agrees(t)
    ensures
      var later := StepAll(t, ops, o);
      && later.held == ApplyAll(t.held, ops, o)
      && Agrees(later)
      && (later == t || later.shown == Project(later.held))
    decreases |ops|
  {
    if ops != [] {
      StepAgrees(t, ops[0], o);
      AgreementHolds(Step(t, ops[0], o), ops[1..], o);
    }
  }
}
