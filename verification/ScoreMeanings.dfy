/** What the areas score and what they list, told from the observations alone. */
module ScoreMeanings {
  import opened Common
  import opened Contract
  import opened Score
  import opened ScoreLaws

  // ------------------------------------------------------------- reliability

  /** What a median latency is worth, band by band. */
  predicate LatencyWorth(medianMs: nat, marks: nat) {
    && (medianMs <= 100 ==> marks == 100)
    && (100 < medianMs <= 300 ==> marks == 80)
    && (300 < medianMs <= 1000 ==> marks == 50)
    && (1000 < medianMs <= 3000 ==> marks == 20)
    && (3000 < medianMs ==> marks == 0)
  }

  /** Only this tool was observed, and no server case. */
  predicate Alone(o: Observations, t: Tool) { o.tools == [t] && o.contention.None? && o.payload.None? }

  lemma {:induction false} SumOne(x: real)
    ensures Sum([x]) == x && Mean([x]) == x
  {
    assert [x][..0] == [];
  }

  lemma {:induction false} AloneIsItsEntry(o: Observations, t: Tool, mode: Latency)
    requires Alone(o, t) && WasExercised(t)
    ensures Reliability(o, mode).score == Round(Entries(mode)(t)[0])
  {
    assert [t][..0] == [];
    var entries := Entries(mode)(t);
    assert FlatMap([t], Entries(mode)) == entries;
    assert AllEntries(o, mode) == [entries[0]];
    SumOne(entries[0]);
  }

  lemma {:induction false} SumParts(e: Exercise, mode: Latency)
    requires e.Exercised?
    ensures Sum(Parts(e, mode)) ==
      Marks(e.consistent) + LatencyMarks(e.medianMs, mode) + (if e.conforms.Some? then Marks(e.conforms.value) else 0.0)
  {
    var two := [Marks(e.consistent), LatencyMarks(e.medianMs, mode)];
    assert two[..1] == [Marks(e.consistent)] && two[..1][..0] == [];
    SumOne(two[0]);
    if e.conforms.Some? {
      var three := Parts(e, mode);
      assert three[..2] == two;
    }
  }

  lemma {:induction false} ShareOf(k: nat, n: nat)
    requires n > 0
    ensures Percent(k, n) / 100.0 == k as real / n as real
  {
    var q := k as real / n as real;
    assert q * n as real == k as real;
    assert 100.0 * k as real == 100.0 * q * n as real;
  }

  lemma {:induction false} MeanTimes(share: real, sum: real, parts: real)
    requires parts == 2.0 || parts == 3.0
    ensures share * sum / parts == share * (sum / parts)
  {
  }

  /** Every call made, however it went. */
  function CallsMade(t: Tool): nat {
    var c := t.calls;
    c.successful + c.toolErrors + c.rpcErrors + c.rejected + c.transportErrors
  }

  lemma {:induction false} EntryIs(t: Tool, mode: Latency, latency: nat)
    requires WasExercised(t) && CallsMade(t) > 0
    requires IsWorth(mode, t.exercise.value.medianMs, latency)
    ensures Entries(mode)(t)[0]
         == t.calls.successful as real / CallsMade(t) as real * MeanOf(t.exercise.value, latency)
  {
    var e := t.exercise.value;
    var parts, share := Parts(e, mode), t.calls.successful as real / CallsMade(t) as real;
    SumParts(e, mode);
    ShareOf(t.calls.successful, CallsMade(t));
    MeanTimes(share, Sum(parts), |parts| as real);
  }

  /** The mean of consistency, latency and, when an output schema is declared,
      conformance. */
  function MeanOf(e: Exercise, latency: nat): real
    requires e.Exercised?
  {
    var consistency, conformance := if e.consistent then 100 else 0, if e.conforms == Some(true) then 100 else 0;
    if e.conforms.None? then (consistency + latency) as real / 2.0
    else (consistency + latency + conformance) as real / 3.0
  }

  /** A lone exercised tool scores its share of successful calls times the mean
      of what its answers are worth: consistency, latency and, when it declares
      an output schema, conformance. */
  lemma {:induction false} LoneToolScores(o: Observations, t: Tool, mode: Latency, latency: nat)
    requires Alone(o, t) && WasExercised(t)
    requires IsWorth(mode, t.exercise.value.medianMs, latency)
    ensures
      var score, k, n := Reliability(o, mode).score, t.calls.successful, CallsMade(t);
      && (k == 0 ==> score == 0)
      && (n > 0 && k == n ==> score == Round(MeanOf(t.exercise.value, latency)))
      && (n > 0 ==> score == Round(k as real / n as real * MeanOf(t.exercise.value, latency)))
  {
    AloneIsItsEntry(o, t, mode);
    EntryMeans(t, mode, latency);
  }

  lemma {:induction false} EntryMeans(t: Tool, mode: Latency, latency: nat)
    requires WasExercised(t)
    requires IsWorth(mode, t.exercise.value.medianMs, latency)
    ensures
      var entry, k, n := Entries(mode)(t)[0], t.calls.successful, CallsMade(t);
      && (k == 0 ==> entry == 0.0)
      && (n > 0 && k == n ==> entry == MeanOf(t.exercise.value, latency))
      && (n > 0 ==> entry == k as real / n as real * MeanOf(t.exercise.value, latency))
  {
    if CallsMade(t) > 0 {
      EntryIs(t, mode, latency);
      Shares(t.calls.successful, CallsMade(t), MeanOf(t.exercise.value, latency));
    } else {
      NothingOver(Parts(t.exercise.value, mode));
    }
  }

  lemma {:induction false} NothingOver(parts: seq<real>)
    requires parts != []
    ensures Entry(0.0, parts) == 0.0
  {
    assert 0.0 / 100.0 * Sum(parts) == 0.0;
  }

  lemma {:induction false} Shares(k: nat, n: nat, mean: real)
    requires n > 0
    ensures k == 0 ==> k as real / n as real * mean == 0.0
    ensures k == n ==> k as real / n as real * mean == mean
  {
    var q := k as real / n as real;
    assert q * n as real == k as real;
    assert k == 0 ==> q == 0.0;
    assert k == n ==> q == 1.0;
  }

  /** With nothing else to find fault with, that is its percentage of successes. */
  lemma {:induction false} LoneToolPercentage(o: Observations, t: Tool, mode: Latency)
    requires Alone(o, t) && WasExercised(t) && CallsMade(t) > 0
    requires t.exercise.value.consistent && t.exercise.value.conforms != Some(false)
    requires mode == FullMarks || t.exercise.value.medianMs <= 100
    ensures Reliability(o, mode).score == Round(100.0 * t.calls.successful as real / CallsMade(t) as real)
  {
    LoneToolScores(o, t, mode, 100);
    ShareOf(t.calls.successful, CallsMade(t));
    assert MeanOf(t.exercise.value, 100) == 100.0;
  }

  /** A check that lost points, rounded. */
  predicate Shows(c: Check, id: CheckId, tool: Option<string>, marks: real, observed: Option<nat>, why: Reason) {
    Round(marks) < 100 && c == Check(id, tool, Round(marks), observed, why)
  }

  lemma {:induction false} LostShows(c: Check, id: CheckId, tool: Option<string>, marks: real, observed: Option<nat>,
                                     why: Reason)
    ensures c in Lost(id, tool, marks, observed, why) <==> Shows(c, id, tool, marks, observed, why)
    ensures Round(0.0) == 0
  {
  }

  function Full(b: bool): real { if b then 100.0 else 0.0 }

  /** What reliability lists against an exercised tool. */
  predicate ShowsExercised(t: Tool, latency: nat, c: Check)
    requires WasExercised(t)
  {
    var e, name, k, n := t.exercise.value, Some(t.name), t.calls.successful, CallsMade(t);
    || Shows(c, ReliabilitySuccess, name, if n == 0 then 0.0 else 100.0 * k as real / n as real, Some(k), CallFailed)
    || Shows(c, ReliabilityConsistent, name, Full(e.consistent), None, Inconsistent)
    || Shows(c, ReliabilityLatency, name, latency as real, None, Slow)
    || (e.conforms.Some? && Shows(c, ReliabilityOutputSchema, name, Full(e.conforms.value), None, SchemaBroken))
  }

  /** What reliability lists against any tool. */
  predicate ShowsTool(t: Tool, latency: nat, c: Check) {
    if WasExercised(t) then ShowsExercised(t, latency, c)
    else if t.exercise == Some(NotExercised(CoverageSkipped)) then
      c == Check(ReliabilitySkipped, Some(t.name), 0, None, CoverageSkipped)
    else
      t.class_ != Writer
      && c == Check(ReliabilityNoneExercised, Some(t.name), 0, None,
                    if t.exercise.Some? then t.exercise.value.reason else NoneExercised)
  }

  predicate IsWorth(mode: Latency, medianMs: nat, latency: nat) {
    if mode == Banded then LatencyWorth(medianMs, latency) else latency == 100
  }

  lemma {:induction false} ExercisedLists(t: Tool, mode: Latency, latency: nat, c: Check)
    requires WasExercised(t) && IsWorth(mode, t.exercise.value.medianMs, latency)
    ensures c in ExercisedChecks(t, mode) <==> ShowsExercised(t, latency, c)
  {
    var e, name := t.exercise.value, Some(t.name);
    LostShows(c, ReliabilitySuccess, name, SuccessRate(t.calls), Some(t.calls.successful), CallFailed);
    LostShows(c, ReliabilityConsistent, name, Marks(e.consistent), None, Inconsistent);
    LostShows(c, ReliabilityLatency, name, LatencyMarks(e.medianMs, mode), None, Slow);
    if e.conforms.Some? {
      LostShows(c, ReliabilityOutputSchema, name, Marks(e.conforms.value), None, SchemaBroken);
    }
  }

  lemma {:induction false} ToolLists(t: Tool, mode: Latency, latency: nat, c: Check)
    requires WasExercised(t) ==> IsWorth(mode, t.exercise.value.medianMs, latency)
    ensures c in ReliabilityChecks(mode)(t) <==> ShowsTool(t, latency, c)
  {
    if WasExercised(t) {
      ExercisedLists(t, mode, latency, c);
    } else {
      LostShows(c, ReliabilitySkipped, Some(t.name), 0.0, None, CoverageSkipped);
      LostShows(c, ReliabilityNoneExercised, Some(t.name), 0.0, None,
                if t.exercise.Some? then t.exercise.value.reason else NoneExercised);
    }
  }

  predicate SomeSkipped(tools: seq<Tool>) {
    exists i :: 0 <= i < |tools| && tools[i].exercise == Some(NotExercised(CoverageSkipped))
  }

  lemma {:induction false} SkippedMeans(tools: seq<Tool>)
    ensures AnySkipped(tools) <==> SomeSkipped(tools)
  {
    if i :| 0 <= i < |tools| && tools[i].exercise == Some(NotExercised(CoverageSkipped)) {
      assert tools[i] in tools && Skipped(tools[i]);
    }
  }

  /** What a server case lists: nothing when it passed or was not tried, unless a
      tool was skipped. */
  predicate ShowsCase(tools: seq<Tool>, outcome: Option<bool>, id: CheckId, why: Reason, c: Check) {
    if SomeSkipped(tools) then c == Check(id, None, 0, None, CoverageSkipped)
    else outcome == Some(false) && c == Check(id, None, 0, None, why)
  }

  lemma {:induction false} CaseLists(tools: seq<Tool>, outcome: Option<bool>, id: CheckId, why: Reason, c: Check)
    ensures c in CaseChecks(AnySkipped(tools), outcome, id, why) <==> ShowsCase(tools, outcome, id, why, c)
  {
    SkippedMeans(tools);
    LostShows(c, id, None, 0.0, None, CoverageSkipped);
    if outcome.Some? {
      LostShows(c, id, None, Marks(outcome.value), None, why);
    }
  }

  /** Some tool of the catalog may be called. */
  predicate AnyCallable(tools: seq<Tool>) { exists t :: t in tools && t.class_ != Writer }

  lemma {:induction false} NoSurface(tools: seq<Tool>)
    ensures Surface(tools) == 0 <==> !AnyCallable(tools)
  {
    if tools != [] {
      NoSurface(tools[..|tools| - 1]);
      assert tools == tools[..|tools| - 1] + [tools[|tools| - 1]];
    }
  }

  /** Reliability lists, against each tool and each server case, exactly what lost
      points; and that there was nothing to score, when there was not. */
  lemma {:induction false} ReliabilityLists(o: Observations, mode: Latency, worth: nat -> nat, c: Check)
    requires forall ms :: IsWorth(mode, ms, worth(ms))
    ensures c in Reliability(o, mode).checks <==>
      || (exists t :: t in o.tools && ShowsTool(t, if WasExercised(t) then worth(t.exercise.value.medianMs) else 0, c))
      || ShowsCase(o.tools, o.contention, ReliabilityContention, ContentionFailed, c)
      || ShowsCase(o.tools, o.payload, ReliabilityPayload, PayloadUnhandled, c)
      || (FlatMap(o.tools, Entries(mode)) == []
          && c == Check(ReliabilityNoneExercised, None, 0, None,
                        if AnyCallable(o.tools) then NoneExercised else NoReadOnlyTools))
  {
    ToolsList(o.tools, mode, worth, c);
    CaseLists(o.tools, o.contention, ReliabilityContention, ContentionFailed, c);
    CaseLists(o.tools, o.payload, ReliabilityPayload, PayloadUnhandled, c);
    NoSurface(o.tools);
    LostShows(c, ReliabilityNoneExercised, None, 0.0, None,
              if AnyCallable(o.tools) then NoneExercised else NoReadOnlyTools);
  }

  lemma {:induction false} ToolsList(tools: seq<Tool>, mode: Latency, worth: nat -> nat, c: Check)
    requires forall ms :: IsWorth(mode, ms, worth(ms))
    ensures c in FlatMap(tools, ReliabilityChecks(mode)) <==>
      exists t :: t in tools && ShowsTool(t, if WasExercised(t) then worth(t.exercise.value.medianMs) else 0, c)
  {
    FlatMapMember(tools, ReliabilityChecks(mode), c);
    forall t | t in tools
      ensures c in ReliabilityChecks(mode)(t)
         <==> ShowsTool(t, if WasExercised(t) then worth(t.exercise.value.medianMs) else 0, c)
    {
      ToolLists(t, mode, if WasExercised(t) then worth(t.exercise.value.medianMs) else 0, c);
    }
  }

  // ------------------------------------------------------------------ catalog

  function One(b: bool): nat { if b then 1 else 0 }

  /** Which facts a catalog entry is held to. */
  predicate Applies(t: Tool, id: CheckId) {
    match id
    case CatalogDescription => true
    case CatalogReadOnlyDeclared => true
    case CatalogOutputSchema => true
    case CatalogParamsDescribed => t.facts.properties > 0
    case CatalogParamsTyped => t.facts.properties > 0
    case CatalogDestructiveDeclared => t.class_ == Writer
    case _ => false
  }

  predicate Meets(t: Tool, id: CheckId) {
    match id
    case CatalogDescription => t.facts.descriptionChars >= 40
    case CatalogReadOnlyDeclared => t.facts.readOnlyDeclared
    case CatalogOutputSchema => t.facts.outputSchema
    case CatalogParamsDescribed => t.facts.described == t.facts.properties
    case CatalogParamsTyped => t.facts.typed == t.facts.properties
    case CatalogDestructiveDeclared => t.facts.destructiveDeclared
    case _ => false
  }

  function Fault(id: CheckId): Reason {
    match id
    case CatalogDescription => ShortDescription
    case CatalogReadOnlyDeclared => ReadOnlyUndeclared
    case CatalogOutputSchema => NoOutputSchema
    case CatalogParamsDescribed => UndescribedParams
    case CatalogParamsTyped => UntypedParams
    case _ => DestructiveUndeclared
  }

  /** The fact an entry is held to under an id. */
  function FactUnder(t: Tool, id: CheckId): Fact {
    Fact(Meets(t, id), id, Fault(id), if id == CatalogDescription then Some(t.facts.descriptionChars) else None)
  }

  function Held(t: Tool, id: CheckId): seq<Fact> { if Applies(t, id) then [FactUnder(t, id)] else [] }

  lemma {:induction false} FactsAre(t: Tool)
    ensures FactsOf(t) ==
      Held(t, CatalogDescription) + (Held(t, CatalogParamsDescribed) + Held(t, CatalogParamsTyped))
      + Held(t, CatalogReadOnlyDeclared) + Held(t, CatalogDestructiveDeclared) + Held(t, CatalogOutputSchema)
  {
    if t.facts.properties > 0 {
      var x, y := FactUnder(t, CatalogParamsDescribed), FactUnder(t, CatalogParamsTyped);
      assert [x] + [y] == [x, y];
    }
  }

  lemma {:induction false} FactIn(t: Tool, f: Fact)
    ensures f in FactsOf(t) <==> Applies(t, f.id) && f == FactUnder(t, f.id)
  {
    FactsAre(t);
    assert f in FactsOf(t) <==>
      || f in Held(t, CatalogDescription) || f in Held(t, CatalogParamsDescribed) || f in Held(t, CatalogParamsTyped)
      || f in Held(t, CatalogReadOnlyDeclared) || f in Held(t, CatalogDestructiveDeclared)
      || f in Held(t, CatalogOutputSchema);
  }

  /** An entry fails a fact it is held to and does not meet. */
  lemma {:induction false} FactsMean(t: Tool, c: Check)
    ensures FailsFact(t, c) <==>
      && Applies(t, c.id) && !Meets(t, c.id)
      && c == Check(c.id, Some(t.name), 0,
                    if c.id == CatalogDescription then Some(t.facts.descriptionChars) else None, Fault(c.id))
  {
    var facts, own := FactsOf(t), FactUnder(t, c.id);
    FactIn(t, own);
    if FailsFact(t, c) {
      var j :| 0 <= j < |facts| && ScoreLaws.Reports(t, facts[j], c);
      FactIn(t, facts[j]);
    }
    if own in facts {
      var j :| 0 <= j < |facts| && facts[j] == own;
      assert ScoreLaws.Reports(t, facts[j], c) <==>
        !own.passed && c == Check(own.id, Some(t.name), 0, own.observed, own.why);
    }
  }

  lemma {:induction false} CountAppend<T>(a: seq<T>, b: seq<T>, p: T -> bool)
    ensures Count(a + b, p) == Count(a, p) + Count(b, p)
  {
    if b == [] {
      assert a + b == a;
    } else {
      CountAppend(a, b[..|b| - 1], p);
      assert (a + b)[..|a + b| - 1] == a + b[..|b| - 1];
    }
  }

  lemma {:induction false} CountOne<T>(x: T, p: T -> bool)
    ensures Count([x], p) == if p(x) then 1 else 0
  {
    assert [x][..0] == [];
  }

  lemma {:induction false} CountSix<T>(p0: seq<T>, p1: seq<T>, p2: seq<T>, p3: seq<T>, p4: seq<T>, p5: seq<T>,
                                       p: T -> bool)
    ensures Count(p0 + (p1 + p2) + p3 + p4 + p5, p)
         == Count(p0, p) + Count(p1, p) + Count(p2, p) + Count(p3, p) + Count(p4, p) + Count(p5, p)
  {
    CountAppend(p0 + (p1 + p2) + p3 + p4, p5, p);
    CountAppend(p0 + (p1 + p2) + p3, p4, p);
    CountAppend(p0 + (p1 + p2), p3, p);
    CountAppend(p0, p1 + p2, p);
    CountAppend(p1, p2, p);
  }

  lemma {:induction false} HeldCount(t: Tool, id: CheckId)
    ensures |Held(t, id)| == One(Applies(t, id)) && Count(Held(t, id), Holds) == One(Applies(t, id) && Meets(t, id))
  {
    CountOne(FactUnder(t, id), Holds);
  }

  lemma {:induction false} FactCounts(t: Tool)
    ensures
      var f, writer := t.facts, t.class_ == Writer;
      && |FactsOf(t)| == 3 + (if f.properties > 0 then 2 else 0) + One(writer)
      && Count(FactsOf(t), Holds) ==
           One(f.descriptionChars >= 40) + One(f.readOnlyDeclared) + One(f.outputSchema)
           + (if f.properties > 0 then One(f.described == f.properties) + One(f.typed == f.properties) else 0)
           + One(writer && f.destructiveDeclared)
  {
    FactsAre(t);
    var p0, p1, p2 := Held(t, CatalogDescription), Held(t, CatalogParamsDescribed), Held(t, CatalogParamsTyped);
    var p3, p4 := Held(t, CatalogReadOnlyDeclared), Held(t, CatalogDestructiveDeclared);
    var p5 := Held(t, CatalogOutputSchema);
    CountSix(p0, p1, p2, p3, p4, p5, Holds);
    HeldCount(t, CatalogDescription);
    HeldCount(t, CatalogParamsDescribed);
    HeldCount(t, CatalogParamsTyped);
    HeldCount(t, CatalogReadOnlyDeclared);
    HeldCount(t, CatalogDestructiveDeclared);
    HeldCount(t, CatalogOutputSchema);
  }

  lemma {:induction false} LoneShare(t: Tool)
    ensures Catalog([t]).score == Round(Percent(Count(FactsOf(t), Holds), |FactsOf(t)|))
  {
    assert [t][..0] == [];
    assert FlatMap([t], Fractions) == [Fraction(t)];
    SumOne(Fraction(t));
  }

  /** An entry's share is the facts it meets out of those it is held to. */
  lemma {:induction false} ShareMeans(t: Tool)
    ensures
      var f, writer := t.facts, t.class_ == Writer;
      var held := 3 + (if f.properties > 0 then 2 else 0) + One(writer);
      var met := One(f.descriptionChars >= 40) + One(f.readOnlyDeclared) + One(f.outputSchema)
                 + (if f.properties > 0 then One(f.described == f.properties) + One(f.typed == f.properties) else 0)
                 + One(writer && f.destructiveDeclared);
      Catalog([t]).score == Round(100.0 * met as real / held as real)
  {
    LoneShare(t);
    FactCounts(t);
  }

  // ------------------------------------------------------------------ context

  /** Full marks up to `full`, none from `zero`, and in between as far from `zero`
      as the logarithm is. */
  lemma {:induction false} CurveMeans(value: nat, full: nat, zero: nat, ln: real -> real)
    requires 0 < full < zero && Increasing(ln)
    ensures
      var marks := LogCurve(value, full, zero, ln);
      && (value <= full ==> marks == 100.0)
      && (value >= zero ==> marks == 0.0)
      && (full < value < zero ==>
            marks * (ln(zero as real) - ln(full as real)) == 100.0 * (ln(zero as real) - ln(value as real)))
  {
  }

  /** The catalog's weight is three quarters of the score, its heaviest entry's
      the rest; each is listed when it lost points. */
  lemma {:induction false} ContextMeans(tools: seq<Tool>, ln: real -> real, c: Check)
    requires Increasing(ln) && tools != []
    ensures
      var area := Context(tools, ln);
      var catalog := LogCurve(TotalTokens(tools), 2_000, 40_000, ln);
      var entry := LogCurve(Heaviest(tools).tokens, 500, 5_000, ln);
      && area.score == Round((3.0 * catalog + entry) / 4.0)
      && (c in area.checks <==>
            || Shows(c, ContextCatalog, None, catalog, Some(TotalTokens(tools)), CatalogHeavy)
            || Shows(c, ContextHeaviestTool, Some(Heaviest(tools).name), entry, Some(Heaviest(tools).tokens),
                     ToolHeavy))
  {
    LostShows(c, ContextCatalog, None, LogCurve(TotalTokens(tools), 2_000, 40_000, ln), Some(TotalTokens(tools)),
              CatalogHeavy);
    LostShows(c, ContextHeaviestTool, Some(Heaviest(tools).name), LogCurve(Heaviest(tools).tokens, 500, 5_000, ln),
              Some(Heaviest(tools).tokens), ToolHeavy);
  }

  lemma {:induction false} TokensAdd(a: seq<Tool>, b: seq<Tool>)
    ensures TotalTokens(a + b) == TotalTokens(a) + TotalTokens(b)
    ensures |b| == 1 ==> TotalTokens(b) == b[0].tokens
  {
    if b == [] {
      assert a + b == a;
    } else {
      TokensAdd(a, b[..|b| - 1]);
      assert (a + b)[..|a + b| - 1] == a + b[..|b| - 1];
    }
  }

  // ------------------------------------------------- protocol, honesty, coverage

  /** Exactly the places in a list where a property holds. */
  ghost predicate Places<T>(which: set<nat>, s: seq<T>, p: T -> bool) {
    forall i: nat :: i in which <==> i < |s| && p(s[i])
  }

  /** How many elements of a list have a property. */
  lemma {:induction false} CountMeans<T>(s: seq<T>, p: T -> bool, which: set<nat>)
    requires Places(which, s, p)
    ensures Count(s, p) == |which|
  {
    if s == [] {
      assert which == {};
    } else {
      var n := |s| - 1;
      var before := which - {n};
      assert n in which <==> p(s[n]);
      assert Places(before, s[..n], p) by {
        forall i: nat ensures i in before <==> i < n && p(s[..n][i]) {
          assert i in which <==> i < |s| && p(s[i]);
        }
      }
      CountMeans(s[..n], p, before);
      assert which == if p(s[n]) then before + {n} else before;
    }
  }

  /** Protocol scores the share of checks that passed and lists the others. */
  lemma {:induction false} ProtocolMeans(results: seq<ProtocolResult>, passed: set<nat>, c: Check)
    requires results != [] && Places(passed, results, (r: ProtocolResult) => r.failure.None?)
    ensures Protocol(results).score == Round(100.0 * |passed| as real / |results| as real)
    ensures c in Protocol(results).checks <==>
      exists r :: r in results && r.failure.Some? && c == Check(r.check, None, 0, None, r.failure.value)
  {
    assert Places(passed, results, PassedCheck) by {
      forall i: nat ensures i in passed <==> i < |results| && PassedCheck(results[i]) {
      }
    }
    CountMeans(results, PassedCheck, passed);
    FlatMapMember(results, ProtocolChecks, c);
    forall r | r in results
      ensures c in ProtocolChecks(r) <==> r.failure.Some? && c == Check(r.check, None, 0, None, r.failure.value)
    {
      if r.failure.Some? {
        LostShows(c, r.check, None, 0.0, None, r.failure.value);
      }
    }
  }

  lemma {:induction false} PlacesAgree<T>(which: set<nat>, s: seq<T>, p: T -> bool, q: T -> bool)
    requires Places(which, s, p) && forall x :: x in s ==> p(x) == q(x)
    ensures Places(which, s, q)
  {
    forall i: nat ensures i in which <==> i < |s| && q(s[i]) {
      assert i < |s| ==> s[i] in s;
    }
  }

  /** Honesty scores the share of judged tools that were honest and lists the
      others with what they did. */
  lemma {:induction false} HonestyMeans(tools: seq<Tool>, judged: set<nat>, honest: set<nat>, c: Check)
    requires Places(judged, tools, (t: Tool) => t.honesty.Some?) && judged != {}
    requires Places(honest, tools, (t: Tool) => t.honesty == Some(Honest))
    ensures ErrorHonesty(tools).score == Round(100.0 * |honest| as real / |judged| as real)
    ensures c in ErrorHonesty(tools).checks <==> exists t :: t in tools && WasDishonest(t, c)
  {
    PlacesAgree(judged, tools, (t: Tool) => t.honesty.Some?, Judged);
    PlacesAgree(honest, tools, (t: Tool) => t.honesty == Some(Honest), IsHonest);
    CountMeans(tools, Judged, judged);
    CountMeans(tools, IsHonest, honest);
    assert |judged| > 0;
    HonestyLists(tools, c);
  }

  predicate WasDishonest(t: Tool, c: Check) {
    && t.honesty.Some? && t.honesty.value.Dishonest?
    && c == Check(ErrorHonestyInvalidArguments, Some(t.name), 0, None, t.honesty.value.because)
  }

  lemma {:induction false} HonestyLists(tools: seq<Tool>, c: Check)
    ensures c in FlatMap(tools, HonestyChecks) <==> exists t :: t in tools && WasDishonest(t, c)
  {
    FlatMapMember(tools, HonestyChecks, c);
    forall t | t in tools ensures c in HonestyChecks(t) <==> WasDishonest(t, c) {
      if t.honesty.Some? && t.honesty.value.Dishonest? {
        LostShows(c, ErrorHonestyInvalidArguments, Some(t.name), 0.0, None, t.honesty.value.because);
      }
    }
  }

  /** An observed callable tool without a successful call. */
  predicate Uncovered(t: Tool, c: Check) {
    && t.class_ != Writer && t.calls.successful == 0 && t.exercise.Some?
    && c == Check(CoverageExercised, Some(t.name), 0, None,
                  if t.exercise.value.Exercised? then CoverageCallFailed else t.exercise.value.reason)
  }

  /** Coverage scores the share of callable tools with a successful call and lists
      those observed without one. */
  lemma {:induction false} CoverageMeans(tools: seq<Tool>, callable: set<nat>, covered: set<nat>, c: Check)
    requires Places(callable, tools, (t: Tool) => t.class_ != Writer) && callable != {}
    requires Places(covered, tools, (t: Tool) => t.class_ != Writer && t.calls.successful > 0)
    ensures Coverage(tools).score == Round(100.0 * |covered| as real / |callable| as real)
    ensures c in Coverage(tools).checks <==> exists t :: t in tools && Uncovered(t, c)
  {
    PlacesAgree(callable, tools, (t: Tool) => t.class_ != Writer, Callable);
    PlacesAgree(covered, tools, (t: Tool) => t.class_ != Writer && t.calls.successful > 0, Covered);
    CountMeans(tools, Callable, callable);
    CountMeans(tools, Covered, covered);
    assert |callable| > 0;
    CoverageLists(tools, c);
  }

  lemma {:induction false} CoverageLists(tools: seq<Tool>, c: Check)
    ensures c in FlatMap(tools, CoverageChecks) <==> exists t :: t in tools && Uncovered(t, c)
  {
    FlatMapMember(tools, CoverageChecks, c);
    forall t | t in tools ensures c in CoverageChecks(t) <==> Uncovered(t, c) {
      if t.exercise.Some? {
        LostShows(c, CoverageExercised, Some(t.name), 0.0, None,
                  if t.exercise.value.Exercised? then CoverageCallFailed else t.exercise.value.reason);
      }
    }
  }

  /** With nothing to score an area is at nothing and says why. */
  lemma {:induction false} NothingToScore(tools: seq<Tool>)
    ensures Protocol([]) == AreaScore(0, [Check(ProtocolPing, None, 0, None, ProtocolCallFailed)])
    ensures Catalog([]) == AreaScore(0, [Check(CatalogEmpty, None, 0, None, NoTools)])
    ensures (forall t :: t in tools ==> t.honesty.None?) ==>
      ErrorHonesty(tools) == AreaScore(0, [Check(ErrorHonestyUntestable, None, 0, None,
                                                 if AnyCallable(tools) then Untestable else NoReadOnlyTools)])
    ensures !AnyCallable(tools) ==>
      Coverage(tools) == AreaScore(0, [Check(CoverageExercised, None, 0, None, NoReadOnlyTools)])
  {
    assert Round(0.0) == 0;
    NoSurface(tools);
    if forall t :: t in tools ==> t.honesty.None? {
      NothingFrom(tools, HonestyChecks);
      CountNone(tools, Judged);
    }
    if !AnyCallable(tools) {
      NothingFrom(tools, CoverageChecks);
    }
  }

  lemma {:induction false} NothingFrom<T>(s: seq<T>, f: T -> seq<Check>)
    requires forall x :: x in s ==> f(x) == []
    ensures FlatMap(s, f) == []
  {
    if s != [] {
      NothingFrom(s[..|s| - 1], f);
    }
  }

  /** Every area is under its own name. */
  lemma {:induction false} FoldMeans(o: Observations, ln: real -> real)
    requires Increasing(ln)
    ensures
      var f := Fold(o, ln);
      && f.protocol == Protocol(o.protocol) && f.catalog == Catalog(o.tools) && f.context == Context(o.tools, ln)
      && f.honesty == ErrorHonesty(o.tools) && f.reliability == Reliability(o, Banded)
      && f.coverage == Coverage(o.tools)
  {
  }
}
