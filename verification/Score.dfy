/** The readiness fold (src/score.rs), over the reals: six area scores, their
    lost checks, and the weighted mean. */
module Score {
  import opened Common
  import opened Contract
  import StringOrder

  // ------------------------------------------------------------- data model

  datatype CheckId =
    | ContextCatalog | ContextHeaviestTool
    | ReliabilitySuccess | ReliabilityConsistent | ReliabilityLatency | ReliabilityOutputSchema
    | ReliabilityContention | ReliabilityPayload | ReliabilityNoneExercised | ReliabilitySkipped
    | CoverageExercised
    | CatalogDescription | CatalogParamsDescribed | CatalogParamsTyped | CatalogReadOnlyDeclared
    | CatalogDestructiveDeclared | CatalogOutputSchema | CatalogEmpty
    | ProtocolNegotiation | ProtocolUnknownMethod | ProtocolPing | ProtocolUnknownTool
    | ProtocolPagination | ProtocolSurfaces
    | ErrorHonestyInvalidArguments | ErrorHonestyUntestable

  datatype Reason =
    | CatalogHeavy | ToolHeavy
    | CallFailed | Inconsistent | Slow | SchemaBroken | ContentionFailed | PayloadUnhandled | NoneExercised
    | CoverageUnannotated | CoverageUnsynthesizable | CoverageSkipped | CoverageRejectedArguments
    | CoverageCallFailed | NoReadOnlyTools
    | ShortDescription | UndescribedParams | UntypedParams | ReadOnlyUndeclared | DestructiveUndeclared
    | NoOutputSchema | NoTools
    | NegotiationEchoedUnknown | NegotiationInvalidVersion | NegotiationInconsistentSupport
    | UnknownMethodAnswered | PingFailed | UnknownToolAccepted | PaginationInvalid | SurfaceInvalid
    | ProtocolCallFailed
    | AcceptedInvalid | EmptyError | WrongCode | HonestyCallFailed | Untestable

  datatype Exercise =
    | NotExercised(reason: Reason)
    | Exercised(consistent: bool, medianMs: nat, conforms: Option<bool>)

  datatype Honesty = Honest | Dishonest(because: Reason)

  datatype Facts = Facts(descriptionChars: nat, properties: nat, described: nat, typed: nat,
                         readOnlyDeclared: bool, destructiveDeclared: bool, outputSchema: bool)

  datatype Calls = Calls(successful: nat, toolErrors: nat, rpcErrors: nat, rejected: nat, transportErrors: nat) {
    function Total(): nat { successful + toolErrors + rpcErrors + rejected + transportErrors }
  }

  datatype Tool = Tool(name: string, tokens: nat, class_: ToolClass, exercise: Option<Exercise>,
                       facts: Facts, honesty: Option<Honesty>, calls: Calls)

  datatype ProtocolResult = ProtocolResult(check: CheckId, failure: Option<Reason>)

  datatype Observations = Observations(tools: seq<Tool>, contention: Option<bool>, payload: Option<bool>,
                                       protocol: seq<ProtocolResult>)

  datatype Check = Check(id: CheckId, tool: Option<string>, score: nat, observed: Option<nat>, why: Reason)

  datatype AreaScore = AreaScore(score: nat, checks: seq<Check>)

  datatype Latency = Banded | FullMarks

  datatype Readiness = Readiness(score: nat, withoutLatency: nat, protocol: AreaScore, catalog: AreaScore,
                                 context: AreaScore, honesty: AreaScore, reliability: AreaScore, coverage: AreaScore)

  const CATALOG_FULL_TOKENS: nat := 2_000
  const CATALOG_ZERO_TOKENS: nat := 40_000
  const TOOL_FULL_TOKENS: nat := 500
  const TOOL_ZERO_TOKENS: nat := 5_000
  const DESCRIPTION_MIN_CHARS: nat := 40

  // -------------------------------------------------------- shared arithmetic

  /** Half away from zero, then clamped to a score. */
  function Round(x: real): (n: nat)
    ensures n <= 100
  {
    var nearest := (x + 0.5).Floor;
    if nearest < 0 then 0 else if nearest > 100 then 100 else nearest
  }

  function Sum(s: seq<real>): real {
    if s == [] then 0.0 else Sum(s[..|s| - 1]) + s[|s| - 1]
  }

  function Mean(s: seq<real>): real
    requires s != []
  {
    Sum(s) / |s| as real
  }

  function Percent(part: nat, whole: nat): real
    requires whole > 0
  {
    100.0 * part as real / whole as real
  }

  function Marks(passed: bool): real { if passed then 100.0 else 0.0 }

  /** The check, when it lost points. */
  function Lost(id: CheckId, tool: Option<string>, score: real, observed: Option<nat>, why: Reason): seq<Check> {
    if Round(score) < 100 then [Check(id, tool, Round(score), observed, why)] else []
  }

  function Count<T>(s: seq<T>, p: T -> bool): (n: nat)
    ensures n <= |s|
  {
    if s == [] then 0 else Count(s[..|s| - 1], p) + (if p(s[|s| - 1]) then 1 else 0)
  }

  function FlatMap<T, U>(s: seq<T>, f: T -> seq<U>): seq<U> {
    if s == [] then [] else FlatMap(s[..|s| - 1], f) + f(s[|s| - 1])
  }

  // ---------------------------------------------------------------- protocol

  function ProtocolChecks(r: ProtocolResult): seq<Check> {
    if r.failure.Some? then Lost(r.check, None, 0.0, None, r.failure.value) else []
  }

  predicate PassedCheck(r: ProtocolResult) { r.failure.None? }

  function Protocol(results: seq<ProtocolResult>): AreaScore {
    if results == [] then AreaScore(0, Lost(ProtocolPing, None, 0.0, None, ProtocolCallFailed))
    else AreaScore(Round(Percent(Count(results, PassedCheck), |results|)),
                   FlatMap(results, ProtocolChecks))
  }

  // ----------------------------------------------------------------- catalog

  datatype Fact = Fact(passed: bool, id: CheckId, why: Reason, observed: Option<nat>)

  /** The checks that apply to one catalog entry, in report order. */
  function FactsOf(t: Tool): (facts: seq<Fact>)
    ensures |facts| >= 3
  {
    var f := t.facts;
    [Fact(f.descriptionChars >= DESCRIPTION_MIN_CHARS, CatalogDescription, ShortDescription, Some(f.descriptionChars))]
    + (if f.properties > 0 then
         [Fact(f.described == f.properties, CatalogParamsDescribed, UndescribedParams, None),
          Fact(f.typed == f.properties, CatalogParamsTyped, UntypedParams, None)]
       else [])
    + [Fact(f.readOnlyDeclared, CatalogReadOnlyDeclared, ReadOnlyUndeclared, None)]
    + (if t.class_ == Writer then
         [Fact(f.destructiveDeclared, CatalogDestructiveDeclared, DestructiveUndeclared, None)]
       else [])
    + [Fact(f.outputSchema, CatalogOutputSchema, NoOutputSchema, None)]
  }

  predicate Holds(f: Fact) { f.passed }

  function Fraction(t: Tool): real {
    Percent(Count(FactsOf(t), Holds), |FactsOf(t)|)
  }

  function Fractions(t: Tool): seq<real> { [Fraction(t)] }

  function FactChecks(name: string): Fact -> seq<Check> {
    (f: Fact) => if f.passed then [] else Lost(f.id, Some(name), 0.0, f.observed, f.why)
  }

  function CatalogChecks(t: Tool): seq<Check> { FlatMap(FactsOf(t), FactChecks(t.name)) }

  lemma {:induction false} FractionPerTool(tools: seq<Tool>)
    ensures |FlatMap(tools, Fractions)| == |tools|
  {
    if tools != [] {
      FractionPerTool(tools[..|tools| - 1]);
    }
  }

  function Catalog(tools: seq<Tool>): AreaScore {
    FractionPerTool(tools);
    if tools == [] then AreaScore(0, Lost(CatalogEmpty, None, 0.0, None, NoTools))
    else AreaScore(Round(Mean(FlatMap(tools, Fractions))), FlatMap(tools, CatalogChecks))
  }

  // ----------------------------------------------------------------- context

  ghost predicate Increasing(ln: real -> real) {
    forall x, y :: 0.0 < x < y ==> ln(x) < ln(y)
  }

  /** 100 up to `full`, 0 from `zero`, logarithmic in between. */
  function LogCurve(value: nat, full: nat, zero: nat, ln: real -> real): real
    requires 0 < full < zero && Increasing(ln)
  {
    if value <= full then 100.0
    else if value >= zero then 0.0
    else 100.0 * (ln(zero as real) - ln(value as real)) / (ln(zero as real) - ln(full as real))
  }

  function TotalTokens(tools: seq<Tool>): nat {
    if tools == [] then 0 else TotalTokens(tools[..|tools| - 1]) + tools[|tools| - 1].tokens
  }

  predicate NoHeavier(a: Tool, b: Tool) {
    a.tokens < b.tokens || (a.tokens == b.tokens && StringOrder.Le(b.name, a.name))
  }

  /** The last maximum, as an iterator's `max_by` picks it. */
  function Heaviest(tools: seq<Tool>): Tool
    requires tools != []
  {
    var last := tools[|tools| - 1];
    if |tools| == 1 then last
    else
      var best := Heaviest(tools[..|tools| - 1]);
      if NoHeavier(best, last) then last else best
  }

  function HeaviestTokens(tools: seq<Tool>): nat { if tools == [] then 0 else Heaviest(tools).tokens }

  function Context(tools: seq<Tool>, ln: real -> real): AreaScore
    requires Increasing(ln)
  {
    var total, heaviest := TotalTokens(tools), HeaviestTokens(tools);
    var catalog := LogCurve(total, CATALOG_FULL_TOKENS, CATALOG_ZERO_TOKENS, ln);
    var tool := LogCurve(heaviest, TOOL_FULL_TOKENS, TOOL_ZERO_TOKENS, ln);
    AreaScore(Round(0.75 * catalog + (1.0 - 0.75) * tool),
              Lost(ContextCatalog, None, catalog, Some(total), CatalogHeavy)
              + Lost(ContextHeaviestTool, if tools == [] then None else Some(Heaviest(tools).name),
                     tool, Some(heaviest), ToolHeavy))
  }

  // ------------------------------------------------------------ error honesty

  predicate Callable(t: Tool) { t.class_ != Writer }

  function Surface(tools: seq<Tool>): nat { Count(tools, Callable) }

  predicate Judged(t: Tool) { t.honesty.Some? }

  predicate IsHonest(t: Tool) { t.honesty == Some(Honest) }

  function HonestyChecks(t: Tool): seq<Check> {
    match t.honesty
    case Some(Dishonest(why)) => Lost(ErrorHonestyInvalidArguments, Some(t.name), 0.0, None, why)
    case _ => []
  }

  function ErrorHonesty(tools: seq<Tool>): AreaScore {
    var checks := FlatMap(tools, HonestyChecks);
    if Count(tools, Judged) == 0 then
      AreaScore(0, checks + Lost(ErrorHonestyUntestable, None, 0.0, None,
                                 if Surface(tools) == 0 then NoReadOnlyTools else Untestable))
    else AreaScore(Round(Percent(Count(tools, IsHonest), Count(tools, Judged))), checks)
  }

  // -------------------------------------------------------------- reliability

  function Band(medianMs: nat): nat {
    if medianMs <= 100 then 100
    else if medianMs <= 300 then 80
    else if medianMs <= 1_000 then 50
    else if medianMs <= 3_000 then 20
    else 0
  }

  predicate Skipped(t: Tool) { t.exercise == Some(NotExercised(CoverageSkipped)) }

  function SuccessRate(calls: Calls): real {
    if calls.Total() == 0 then 0.0 else Percent(calls.successful, calls.Total())
  }

  function LatencyMarks(medianMs: nat, mode: Latency): real {
    if mode == Banded then Band(medianMs) as real else 100.0
  }

  function Parts(e: Exercise, mode: Latency): (parts: seq<real>)
    requires e.Exercised?
    ensures |parts| == if e.conforms.Some? then 3 else 2
  {
    [Marks(e.consistent), LatencyMarks(e.medianMs, mode)]
    + (if e.conforms.Some? then [Marks(e.conforms.value)] else [])
  }

  predicate WasExercised(t: Tool) { t.exercise.Some? && t.exercise.value.Exercised? }

  function Entry(success: real, parts: seq<real>): real
    requires parts != []
  {
    success / 100.0 * Sum(parts) / |parts| as real
  }

  /** What one tool contributes to the mean: nothing for an uncalled writer. */
  function Entries(mode: Latency): Tool -> seq<real> {
    (t: Tool) =>
      if WasExercised(t) then
        [Entry(SuccessRate(t.calls), Parts(t.exercise.value, mode))]
      else if Skipped(t) || Callable(t) then [0.0]
      else []
  }

  function ExercisedChecks(t: Tool, mode: Latency): seq<Check>
    requires WasExercised(t)
  {
    var e, name := t.exercise.value, Some(t.name);
    Lost(ReliabilitySuccess, name, SuccessRate(t.calls), Some(t.calls.successful), CallFailed)
    + Lost(ReliabilityConsistent, name, Marks(e.consistent), None, Inconsistent)
    + Lost(ReliabilityLatency, name, LatencyMarks(e.medianMs, mode), None, Slow)
    + (if e.conforms.Some? then
         Lost(ReliabilityOutputSchema, name, Marks(e.conforms.value), None, SchemaBroken)
       else [])
  }

  function ReliabilityChecks(mode: Latency): Tool -> seq<Check> {
    (t: Tool) =>
      if WasExercised(t) then ExercisedChecks(t, mode)
      else if Skipped(t) then Lost(ReliabilitySkipped, Some(t.name), 0.0, None, CoverageSkipped)
      else if Callable(t) then
        Lost(ReliabilityNoneExercised, Some(t.name), 0.0, None,
             if t.exercise.Some? then t.exercise.value.reason else NoneExercised)
      else []
  }

  predicate AnySkipped(tools: seq<Tool>) { exists t :: t in tools && Skipped(t) }

  function CaseEntries(anySkipped: bool, outcome: Option<bool>): seq<real> {
    if anySkipped then [0.0] else if outcome.Some? then [Marks(outcome.value)] else []
  }

  function CaseChecks(anySkipped: bool, outcome: Option<bool>, id: CheckId, why: Reason): seq<Check> {
    if anySkipped then Lost(id, None, 0.0, None, CoverageSkipped)
    else if outcome.Some? then Lost(id, None, Marks(outcome.value), None, why)
    else []
  }

  function AllEntries(o: Observations, mode: Latency): seq<real> {
    var skipped := AnySkipped(o.tools);
    FlatMap(o.tools, Entries(mode)) + CaseEntries(skipped, o.contention) + CaseEntries(skipped, o.payload)
  }

  function AllReliabilityChecks(o: Observations, mode: Latency): seq<Check> {
    var skipped := AnySkipped(o.tools);
    FlatMap(o.tools, ReliabilityChecks(mode))
    + CaseChecks(skipped, o.contention, ReliabilityContention, ContentionFailed)
    + CaseChecks(skipped, o.payload, ReliabilityPayload, PayloadUnhandled)
  }

  function Reliability(o: Observations, mode: Latency): AreaScore {
    if FlatMap(o.tools, Entries(mode)) == [] then
      AreaScore(0, AllReliabilityChecks(o, mode)
                   + Lost(ReliabilityNoneExercised, None, 0.0, None,
                          if Surface(o.tools) == 0 then NoReadOnlyTools else NoneExercised))
    else AreaScore(Round(Mean(AllEntries(o, mode))), AllReliabilityChecks(o, mode))
  }

  // ----------------------------------------------------------------- coverage

  predicate Covered(t: Tool) { Callable(t) && t.calls.successful > 0 }

  function CoverageChecks(t: Tool): seq<Check> {
    if !Callable(t) || t.calls.successful > 0 || t.exercise.None? then []
    else Lost(CoverageExercised, Some(t.name), 0.0, None,
              if t.exercise.value.Exercised? then CoverageCallFailed else t.exercise.value.reason)
  }

  function Coverage(tools: seq<Tool>): AreaScore {
    var checks := FlatMap(tools, CoverageChecks);
    if Surface(tools) == 0 then
      AreaScore(0, checks + Lost(CoverageExercised, None, 0.0, None, NoReadOnlyTools))
    else AreaScore(Round(Percent(Count(tools, Covered), Surface(tools))), checks)
  }

  // --------------------------------------------------------------------- fold

  /** The weighted mean of the area scores: the weights sum to 100. */
  function Weighted(protocol: nat, catalog: nat, context: nat, honesty: nat, reliability: nat, coverage: nat): nat {
    Round((15 * protocol + 20 * catalog + 15 * context + 15 * honesty + 20 * reliability + 15 * coverage) as real
          / 100.0)
  }

  function Fold(o: Observations, ln: real -> real): Readiness
    requires Increasing(ln)
  {
    var p, c, x := Protocol(o.protocol), Catalog(o.tools), Context(o.tools, ln);
    var h, r, v := ErrorHonesty(o.tools), Reliability(o, Banded), Coverage(o.tools);
    Readiness(Weighted(p.score, c.score, x.score, h.score, r.score, v.score),
              Weighted(p.score, c.score, x.score, h.score, Reliability(o, FullMarks).score, v.score),
              p, c, x, h, r, v)
  }

  // ------------------------------------------------- the loops that build them

  lemma {:induction false} Snoc<T>(s: seq<T>, i: nat)
    requires i < |s|
    ensures s[..i + 1][..i] == s[..i] && s[..i + 1][i] == s[i] && |s[..i + 1]| == i + 1
  {
  }

  lemma {:induction false} Whole<T>(s: seq<T>)
    ensures s[..|s|] == s
  {
  }

  method FoldCatalog(tools: seq<Tool>) returns (area: AreaScore)
    ensures area == Catalog(tools)
  {
    if tools == [] {
      return AreaScore(0, Lost(CatalogEmpty, None, 0.0, None, NoTools));
    }
    var fractions: seq<real>, checks: seq<Check> := [], [];
    for i := 0 to |tools|
      invariant fractions == FlatMap(tools[..i], Fractions)
      invariant checks == FlatMap(tools[..i], CatalogChecks)
    {
      var results := FactsOf(tools[i]);
      fractions := fractions + [Percent(Count(results, Holds), |results|)];
      var earlier := checks;
      for j := 0 to |results|
        invariant checks == earlier + FlatMap(results[..j], FactChecks(tools[i].name))
      {
        if !results[j].passed {
          checks := checks + Lost(results[j].id, Some(tools[i].name), 0.0, results[j].observed, results[j].why);
        }
        Snoc(results, j);
        Appended(earlier, FlatMap(results[..j], FactChecks(tools[i].name)), FactChecks(tools[i].name)(results[j]));
      }
      Whole(results);
      Snoc(tools, i);
    }
    Whole(tools);
    FractionPerTool(tools);
    area := AreaScore(Round(Mean(fractions)), checks);
  }

  lemma {:induction false} Appended<T>(a: seq<T>, b: seq<T>, c: seq<T>)
    ensures a + (b + c) == (a + b) + c
  {
  }

  method FoldHonesty(tools: seq<Tool>) returns (area: AreaScore)
    ensures area == ErrorHonesty(tools)
  {
    var judged, honest := 0, 0;
    var checks: seq<Check> := [];
    for i := 0 to |tools|
      invariant judged == Count(tools[..i], Judged)
      invariant honest == Count(tools[..i], IsHonest)
      invariant checks == FlatMap(tools[..i], HonestyChecks)
    {
      Snoc(tools, i);
      match tools[i].honesty {
        case None =>
        case Some(Honest) => judged, honest := judged + 1, honest + 1;
        case Some(Dishonest(why)) =>
          judged := judged + 1;
          checks := checks + Lost(ErrorHonestyInvalidArguments, Some(tools[i].name), 0.0, None, why);
      }
    }
    Whole(tools);
    if judged == 0 {
      var why := if Surface(tools) == 0 then NoReadOnlyTools else Untestable;
      area := AreaScore(0, checks + Lost(ErrorHonestyUntestable, None, 0.0, None, why));
    } else {
      area := AreaScore(Round(Percent(honest, judged)), checks);
    }
  }

  method FoldCoverage(tools: seq<Tool>) returns (area: AreaScore)
    ensures area == Coverage(tools)
  {
    var surface := Surface(tools);
    var exercised := 0;
    var checks: seq<Check> := [];
    for i := 0 to |tools|
      invariant exercised == Count(tools[..i], Covered)
      invariant checks == FlatMap(tools[..i], CoverageChecks)
    {
      Snoc(tools, i);
      var t := tools[i];
      if t.class_ == Writer {
        continue;
      }
      if t.calls.successful > 0 {
        exercised := exercised + 1;
        continue;
      }
      match t.exercise {
        case Some(Exercised(_, _, _)) =>
          checks := checks + Lost(CoverageExercised, Some(t.name), 0.0, None, CoverageCallFailed);
        case Some(NotExercised(why)) =>
          checks := checks + Lost(CoverageExercised, Some(t.name), 0.0, None, why);
        case None =>
      }
    }
    Whole(tools);
    if surface == 0 {
      area := AreaScore(0, checks + Lost(CoverageExercised, None, 0.0, None, NoReadOnlyTools));
    } else {
      area := AreaScore(Round(Percent(exercised, surface)), checks);
    }
  }

  /** One tool's share of the reliability loop. */
  method ToolEntry(t: Tool, mode: Latency) returns (entries: seq<real>, checks: seq<Check>)
    ensures entries == Entries(mode)(t) && checks == ReliabilityChecks(mode)(t)
  {
    if Skipped(t) {
      return [0.0], Lost(ReliabilitySkipped, Some(t.name), 0.0, None, CoverageSkipped);
    }
    if t.exercise.None? || t.exercise.value.NotExercised? {
      if t.class_ == Writer {
        return [], [];
      }
      var why := if t.exercise.Some? then t.exercise.value.reason else NoneExercised;
      return [0.0], Lost(ReliabilityNoneExercised, Some(t.name), 0.0, None, why);
    }
    var entry;
    entry, checks := ExercisedEntry(t, mode);
    entries := [entry];
  }

  method ExercisedEntry(t: Tool, mode: Latency) returns (entry: real, checks: seq<Check>)
    requires WasExercised(t)
    ensures entry == Entry(SuccessRate(t.calls), Parts(t.exercise.value, mode))
    ensures checks == ExercisedChecks(t, mode)
  {
    var name, e := Some(t.name), t.exercise.value;
    var success := SuccessRate(t.calls);
    checks := Lost(ReliabilitySuccess, name, success, Some(t.calls.successful), CallFailed);
    var consistency, latency := Marks(e.consistent), LatencyMarks(e.medianMs, mode);
    checks := checks + Lost(ReliabilityConsistent, name, consistency, None, Inconsistent);
    checks := checks + Lost(ReliabilityLatency, name, latency, None, Slow);
    var parts := [consistency, latency];
    if e.conforms.Some? {
      var conformance := Marks(e.conforms.value);
      parts := parts + [conformance];
      checks := checks + Lost(ReliabilityOutputSchema, name, conformance, None, SchemaBroken);
    }
    assert parts == Parts(e, mode);
    entry := Entry(success, parts);
  }

  method FoldReliability(o: Observations, mode: Latency) returns (area: AreaScore)
    ensures area == Reliability(o, mode)
  {
    var entries: seq<real>, checks: seq<Check> := [], [];
    var skipped := AnySkipped(o.tools);
    for i := 0 to |o.tools|
      invariant entries == FlatMap(o.tools[..i], Entries(mode))
      invariant checks == FlatMap(o.tools[..i], ReliabilityChecks(mode))
    {
      Snoc(o.tools, i);
      var es, cs := ToolEntry(o.tools[i], mode);
      entries, checks := entries + es, checks + cs;
    }
    Whole(o.tools);
    var exercised := |entries|;
    if skipped {
      entries := entries + [0.0] + [0.0];
      checks := checks + Lost(ReliabilityContention, None, 0.0, None, CoverageSkipped)
                + Lost(ReliabilityPayload, None, 0.0, None, CoverageSkipped);
    } else {
      if o.contention.Some? {
        entries := entries + [Marks(o.contention.value)];
        checks := checks + Lost(ReliabilityContention, None, Marks(o.contention.value), None, ContentionFailed);
      }
      if o.payload.Some? {
        entries := entries + [Marks(o.payload.value)];
        checks := checks + Lost(ReliabilityPayload, None, Marks(o.payload.value), None, PayloadUnhandled);
      }
    }
    assert entries == AllEntries(o, mode) && checks == AllReliabilityChecks(o, mode);
    if exercised == 0 {
      var why := if Surface(o.tools) == 0 then NoReadOnlyTools else NoneExercised;
      area := AreaScore(0, checks + Lost(ReliabilityNoneExercised, None, 0.0, None, why));
    } else {
      area := AreaScore(Round(Mean(entries)), checks);
    }
  }
}
