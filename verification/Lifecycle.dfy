/** The finding lifecycle (src/lifecycle.rs): verification evidence recorded
    under run identities, the closure rule over it, and the query tables kept
    beside it. */
module Lifecycle {
  import opened Common

  const MAX_PASSES: nat := 0x7fff_ffff_ffff_ffff
  const CLOSING_PASSES: nat := 3

  datatype State = Open | FixClaimed | Verifying | Closed

  datatype Row = Row(server: string, tool: Option<string>, code: Option<string>, template: Option<string>,
                     probe: Option<string>, definition: Option<string>, state: State, passes: int,
                     updatedAt: string)

  datatype Run = Run(finding: string, probe: string, definition: Option<string>, run: Option<string>,
                     passed: bool, ts: string)

  /** The authoritative tables: lifecycle rows by finding, and every
      verification in the order of its row number. */
  datatype Evidence = Evidence(rows: map<string, Row>, history: seq<Run>)

  /** The query tables; `columns` is whether the history has the run columns. */
  datatype Shown = Shown(rows: map<string, Row>, history: map<nat, Run>, columns: bool)

  datatype Status = Status(state: State, probe: Option<string>, passes: nat)

  datatype Refusal = InvalidIdentity | FindingUnavailable | RunConflict

  datatype Outcome = Recorded(status: Status) | Refused(why: Refusal)

  datatype Call = Call(finding: string, probe: string, definition: string, run: string, passed: bool, now: string)

  // -------------------------------------------------------------- one record

  predicate IsHex(c: char) { '0' <= c <= '9' || 'a' <= c <= 'f' || 'A' <= c <= 'F' }

  predicate ValidIdentity(c: Call, isRunId: string -> bool) {
    |c.definition| == 64 && (forall i :: 0 <= i < 64 ==> IsHex(c.definition[i])) && isRunId(c.run)
  }

  /** A definition is named by 64 hexadecimal digits, here by their ASCII codes. */
  lemma {:induction false} IdentitiesMean(c: Call, isRunId: string -> bool)
    ensures ValidIdentity(c, isRunId) <==>
      && isRunId(c.run) && |c.definition| == 64
      && forall d :: d in c.definition ==> 48 <= d as int <= 57 || 65 <= d as int <= 70 || 97 <= d as int <= 102
  {
    assert forall d :: IsHex(d) <==> 48 <= d as int <= 57 || 65 <= d as int <= 70 || 97 <= d as int <= 102;
    assert (forall i :: 0 <= i < |c.definition| ==> IsHex(c.definition[i]))
      <==> forall d :: d in c.definition ==> IsHex(d);
  }

  function Transition(state: State, same: bool, consecutive: nat, passed: bool): (State, nat) {
    if !passed then
      if same && state == FixClaimed then (FixClaimed, 0)
      else if state == Verifying || state == Closed then (Open, 0)
      else (FixClaimed, 0)
    else
      var passes := if same then (if consecutive + 1 <= MAX_PASSES then consecutive + 1 else MAX_PASSES) else 1;
      (if passes >= CLOSING_PASSES then Closed else Verifying, passes)
  }

  /** The recorded run of that identity, if any. */
  function Find(history: seq<Run>, run: string): Option<Run> {
    if history == [] then None
    else if history[0].run == Some(run) then Some(history[0])
    else Find(history[1..], run)
  }

  function RunOf(c: Call): Run {
    Run(c.finding, c.probe, Some(c.definition), Some(c.run), c.passed, c.now)
  }

  function Advance(row: Row, c: Call): Row {
    var same := row.probe == Some(c.probe) && row.definition == Some(c.definition);
    var next := Transition(row.state, same, Max(row.passes, 0), c.passed);
    row.(probe := Some(c.probe), definition := Some(c.definition), state := next.0, passes := next.1,
         updatedAt := c.now)
  }

  function StatusOf(row: Row): Status { Status(row.state, row.probe, Max(row.passes, 0)) }

  function SameEvidence(prior: Run, c: Call): bool {
    prior.finding == c.finding && prior.probe == c.probe && prior.definition == Some(c.definition)
    && prior.passed == c.passed
  }

  /** What `record` does to the authoritative tables. */
  function Record(e: Evidence, c: Call, isRunId: string -> bool): (Evidence, Outcome) {
    if !ValidIdentity(c, isRunId) then (e, Refused(InvalidIdentity))
    else if c.finding !in e.rows then (e, Refused(FindingUnavailable))
    else match Find(e.history, c.run)
      case Some(prior) =>
        (e, if SameEvidence(prior, c) then Recorded(StatusOf(e.rows[c.finding])) else Refused(RunConflict))
      case None =>
        var row := Advance(e.rows[c.finding], c);
        (Evidence(e.rows[c.finding := row], e.history + [RunOf(c)]), Recorded(StatusOf(row)))
  }

  // ------------------------------------------------------------ query tables

  /** The history table by row number, counted from zero. */
  function Numbered(history: seq<Run>): map<nat, Run> {
    map k | 0 <= k < |history| :: history[k]
  }

  /** What `project` builds from scratch. */
  function Project(e: Evidence): Shown { Shown(e.rows, Numbered(e.history), true) }

  /** A row already shown keeps its identity columns. */
  function Upsert(shown: map<string, Row>, finding: string, row: Row): map<string, Row> {
    if finding in shown then
      shown[finding := shown[finding].(probe := row.probe, definition := row.definition, state := row.state,
                                       passes := row.passes, updatedAt := row.updatedAt)]
    else shown[finding := row]
  }

  /** A verification is added unless its number or its run is already shown. */
  function Adopt(shown: map<nat, Run>, number: nat, run: Run): map<nat, Run> {
    if number in shown || (run.run.Some? && exists k :: k in shown && shown[k].run == run.run) then shown
    else shown[number := run]
  }

  /** What `project_result` does after the last verification was appended. */
  function ProjectResult(e: Evidence, shown: Shown, finding: string): Shown
    requires finding in e.rows && e.history != []
  {
    if !shown.columns then Project(e)
    else Shown(Upsert(shown.rows, finding, e.rows[finding]),
               Adopt(shown.history, |e.history| - 1, e.history[|e.history| - 1]), true)
  }

  // ------------------------------------------------------------ closure rule

  /** What one run says of a finding, and when. */
  datatype Verdict = Verdict(probe: string, definition: Option<string>, passed: bool, ts: string)

  predicate SameProbe(a: Verdict, b: Verdict) { a.probe == b.probe && a.definition == b.definition }

  /** The last `k` verdicts all passed, under one probe and definition. */
  predicate Green(verdicts: seq<Verdict>, k: nat) {
    k <= |verdicts|
    && forall i :: |verdicts| - k <= i < |verdicts| ==>
         verdicts[i].passed && SameProbe(verdicts[i], verdicts[|verdicts| - 1])
  }

  /** The length of the longest such suffix. */
  function Streak(verdicts: seq<Verdict>): (k: nat)
    ensures k <= |verdicts|
  {
    if verdicts == [] || !verdicts[|verdicts| - 1].passed then 0
    else if |verdicts| == 1 || !SameProbe(verdicts[|verdicts| - 2], verdicts[|verdicts| - 1]) then 1
    else Streak(verdicts[..|verdicts| - 1]) + 1
  }

  lemma {:induction false} StreakIsLongest(verdicts: seq<Verdict>, k: nat)
    ensures Green(verdicts, k) <==> k <= Streak(verdicts)
  {
    assert Green(verdicts, k) && k > 0 ==> verdicts[|verdicts| - 1].passed;
    assert Green(verdicts, k) && k > 1 ==> SameProbe(verdicts[|verdicts| - 2], verdicts[|verdicts| - 1]);
    if k == 0 {
    } else if verdicts != [] && verdicts[|verdicts| - 1].passed {
      var n, front := |verdicts|, verdicts[..|verdicts| - 1];
      if n > 1 && SameProbe(verdicts[n - 2], verdicts[n - 1]) {
        StreakIsLongest(front, k - 1);
        assert Green(verdicts, k) ==> Green(front, k - 1) by {
          if Green(verdicts, k) {
            forall i | n - k <= i < n - 1 ensures front[i].passed && SameProbe(front[i], front[n - 2]) {
              assert verdicts[i].passed && SameProbe(verdicts[i], verdicts[n - 1]);
            }
          }
        }
        assert Green(front, k - 1) ==> Green(verdicts, k) by {
          if Green(front, k - 1) {
            forall i | n - k <= i < n ensures verdicts[i].passed && SameProbe(verdicts[i], verdicts[n - 1]) {
              assert i < n - 1 ==> front[i].passed && SameProbe(front[i], front[n - 2]);
            }
          }
        }
      }
    }
  }

  function StateAfter(verdicts: seq<Verdict>): State {
    if Streak(verdicts) >= CLOSING_PASSES then Closed
    else if Streak(verdicts) >= 1 then Verifying
    else if verdicts == [] || (|verdicts| > 1 && verdicts[|verdicts| - 2].passed) then Open
    else FixClaimed
  }

  /** A finding's row, as the verdicts on it alone determine it. */
  predicate Follows(row: Row, verdicts: seq<Verdict>) {
    && row.passes == Min(Streak(verdicts), MAX_PASSES)
    && row.state == StateAfter(verdicts)
    && row.probe == (if verdicts == [] then None else Some(verdicts[|verdicts| - 1].probe))
    && row.definition == (if verdicts == [] then None else verdicts[|verdicts| - 1].definition)
    && (verdicts != [] ==> row.updatedAt == verdicts[|verdicts| - 1].ts)
  }

  function VerdictOf(r: Run): Verdict { Verdict(r.probe, r.definition, r.passed, r.ts) }

  lemma {:induction false} AdvanceFollows(row: Row, verdicts: seq<Verdict>, c: Call)
    requires Follows(row, verdicts)
    ensures Follows(Advance(row, c), verdicts + [VerdictOf(RunOf(c))])
  {
    var after := verdicts + [VerdictOf(RunOf(c))];
    assert after[..|after| - 1] == verdicts;
    if verdicts != [] {
      assert after[|after| - 2] == verdicts[|verdicts| - 1];
      assert Streak(verdicts) == 0 <==> !verdicts[|verdicts| - 1].passed by {
        StreakIsLongest(verdicts, 1);
      }
    }
  }

  // --------------------------------------------------------------- recorded runs

  lemma {:induction false} Finding(history: seq<Run>, run: string)
    ensures Find(history, run).None? <==> forall i :: 0 <= i < |history| ==> history[i].run != Some(run)
    ensures Find(history, run).Some? ==>
      Find(history, run).value in history && Find(history, run).value.run == Some(run)
  {
    if history != [] && history[0].run != Some(run) {
      Finding(history[1..], run);
      assert forall i :: 0 < i < |history| ==> history[i] == history[1..][i - 1];
    }
  }

  lemma {:induction false} FindAppended(history: seq<Run>, more: seq<Run>, run: string)
    requires Find(history, run).Some?
    ensures Find(history + more, run) == Find(history, run)
  {
    if history[0].run != Some(run) {
      FindAppended(history[1..], more, run);
      assert (history + more)[1..] == history[1..] + more;
    }
  }

  // ----------------------------------------------------- incremental projection

  predicate SameIdentity(a: Row, b: Row) {
    a.server == b.server && a.tool == b.tool && a.code == b.code && a.template == b.template
  }

  /** Shown tables that agree with the evidence but perhaps for what the
      verification of `finding` is about to overwrite or add. */
  ghost predicate AgreesButFor(shown: Shown, before: Evidence, after: Evidence, finding: string)
    requires finding in before.rows
  {
    && (forall f :: f != finding ==> (f in shown.rows <==> f in before.rows))
    && (forall f :: f != finding && f in shown.rows ==> shown.rows[f] == before.rows[f])
    && (finding in shown.rows ==> SameIdentity(shown.rows[finding], before.rows[finding]))
    && (shown.history == Numbered(before.history) || shown.history == Numbered(after.history))
  }

  /** Updating the shown tables by one result builds what a full rebuild would
      exactly when they agreed before, but for that one result. */
  lemma {:induction false} ProjectionKeepsUp(e: Evidence, shown: Shown, c: Call, isRunId: string -> bool)
    requires Record(e, c, isRunId).0 != e
    ensures
      var after := Record(e, c, isRunId).0;
      && c.finding in e.rows && c.finding in after.rows && after.history != []
      && (ProjectResult(after, shown, c.finding) == Project(after)
          <==> !shown.columns || AgreesButFor(shown, e, after, c.finding))
  {
    var after := Record(e, c, isRunId).0;
    if shown.columns {
      ShownRowsKeepUp(e.rows, shown.rows, c.finding, after.rows[c.finding]);
      Finding(e.history, c.run);
      ShownHistoryKeepsUp(e.history, shown.history, RunOf(c));
    }
  }

  lemma {:induction false} ShownRowsKeepUp(rows: map<string, Row>, shown: map<string, Row>, finding: string, row: Row)
    requires finding in rows && SameIdentity(row, rows[finding])
    ensures Upsert(shown, finding, row) == rows[finding := row] <==>
      && (forall f :: f != finding ==> (f in shown <==> f in rows))
      && (forall f :: f != finding && f in shown ==> shown[f] == rows[f])
      && (finding in shown ==> SameIdentity(shown[finding], rows[finding]))
  {
    var left, right := Upsert(shown, finding, row), rows[finding := row];
    if left == right {
      forall f | f != finding ensures f in shown <==> f in rows {
        assert f in left <==> f in right;
      }
      forall f | f != finding && f in shown ensures shown[f] == rows[f] {
        assert left[f] == right[f];
      }
      assert left[finding] == right[finding];
    }
  }

  lemma {:induction false} ShownHistoryKeepsUp(history: seq<Run>, shown: map<nat, Run>, r: Run)
    requires r.run.Some? && forall i :: 0 <= i < |history| ==> history[i].run != r.run
    ensures Adopt(shown, |history|, r) == Numbered(history + [r]) <==>
      shown == Numbered(history) || shown == Numbered(history + [r])
  {
    var n, full := |history|, Numbered(history + [r]);
    assert full == Numbered(history)[n := r];
    if Adopt(shown, n, r) == full && shown != full {
      assert shown[n := r] == full && n !in shown;
      forall k ensures k in shown <==> k in Numbered(history) {
        assert k in shown[n := r] <==> k in full;
      }
      forall k | k in shown ensures shown[k] == Numbered(history)[k] {
        assert shown[n := r][k] == full[k];
      }
      assert shown == Numbered(history);
    }
    if shown == Numbered(history) {
      forall k | k in shown ensures shown[k].run != r.run {
        assert shown[k] == history[k];
      }
    }
  }
}
