/** The starter manifest built from a measured catalog (src/init.rs). */
module Scaffold {
  import opened Common
  import opened Integers
  import opened Json
  import opened Manifest
  import opened Privacy
  import Contract

  const MAX_VERIFIED_TOOLS: nat := 20
  const PAYLOAD_SIZE_BYTES: nat := 1_000_000
  const CHARS_PER_TOKEN: nat := 4
  const U64: nat := 0x1_0000_0000_0000_0000

  /** The most bytes a value held in memory has. */
  const MAX_BYTES: nat := 0x7fff_ffff_ffff_ffff

  datatype Tool = Tool(definition: Contract.ToolDefinition, entryBytes: nat)

  datatype Decision =
    | ReadOnlyHint | Attested | NeedsAttestation | DestructiveHint | NotReadOnly | RequiredArguments | NotSelected

  /** What the scaffold is built from: the catalog, what the operator passed,
      the arguments a schema yields, and how each smoke call went. */
  datatype Setting = Setting(catalog: seq<Tool>, encodedBytes: nat, confirm: bool, selected: seq<string>,
                             supplied: map<string, Value>, synthesize: Value -> Option<Value>,
                             smoke: nat -> Option<nat>, surfaces: bool)

  // -------------------------------------------------------------- arithmetic

  function CeilDiv(x: nat, step: nat): nat
    requires step > 0
  {
    (x + step - 1) / step
  }

  function RoundUpTo(x: nat, step: nat): nat
    requires step > 0
  {
    CeilDiv(x, step) * step
  }

  function ClampNat(x: nat, lo: nat, hi: nat): nat { if x < lo then lo else if x > hi then hi else x }

  function Tokens(bytes: nat): nat { CeilDiv(bytes, CHARS_PER_TOKEN) }

  lemma {:induction false} RoundedUp(x: nat)
    ensures x <= RoundUpTo(x, 100) < x + 100 && RoundUpTo(x, 100) % 100 == 0
  {
    var q := (x + 99) / 100;
    assert q * 100 == RoundUpTo(x, 100);
  }

  /** The measured sizes never overflow 64 bits. */
  lemma {:induction false} SizesFit(bytes: nat)
    requires bytes <= MAX_BYTES
    ensures bytes * 2 < U64 && Tokens(bytes) * 2 < U64 && RoundUpTo(Tokens(bytes) * 2, 100) < U64
  {
    RoundedUp(Tokens(bytes) * 2);
  }

  const LONGEST_LATENCY: nat := 4_611_686_018_427_387_900

  /** A latency budget does not either, up to 146 million years. */
  lemma {:induction false} LatencyFitsWhen(latencyMs: nat)
    ensures latencyMs * 4 < U64 && RoundUpTo(latencyMs * 4, 100) < U64 <==> latencyMs <= LONGEST_LATENCY
  {
    RoundedUp(latencyMs * 4);
  }

  // --------------------------------------------------------------- decisions

  predicate ZeroRequired(schema: Value) {
    match Get(schema, "required")
    case Some(Arr(items)) => items == []
    case _ => true
  }

  function CallArguments(s: Setting, t: Tool): Option<Value> {
    if t.definition.name in s.supplied then Some(s.supplied[t.definition.name])
    else if ZeroRequired(t.definition.inputSchema) then Some(Obj([]))
    else s.synthesize(t.definition.inputSchema)
  }

  function Decide(s: Setting, t: Tool): Decision {
    if s.selected != [] && t.definition.name !in s.selected then NotSelected
    else if t.definition.destructiveHint == Some(true) then DestructiveHint
    else if t.definition.readOnlyHint == Some(false) then NotReadOnly
    else if CallArguments(s, t).None? then RequiredArguments
    else if t.definition.readOnlyHint == Some(true) then ReadOnlyHint
    else if s.confirm then Attested
    else NeedsAttestation
  }

  predicate Candidate(s: Setting, t: Tool) { Decide(s, t).ReadOnlyHint? || Decide(s, t).Attested? }

  /** Candidates have arguments and are never writers; without an annotation
      they were attested. */
  lemma {:induction false} CandidatesAreSafe(s: Setting, t: Tool)
    requires Candidate(s, t)
    ensures CallArguments(s, t).Some?
    ensures Contract.ClassOf(t.definition) != Contract.Writer
    ensures Contract.ClassOf(t.definition) == Contract.ReadOnly || s.confirm
  {
  }

  // ---------------------------------------------------------------- case ids

  /** The six cases a tool can have. */
  datatype Slot = Guessable | Repeat | Latency | Output | Contended | Payload

  function SuffixOf(slot: Slot): string {
    match slot
    case Guessable => "guessable"
    case Repeat => "repeat"
    case Latency => "latency"
    case Output => "output"
    case Contended => "contention"
    case Payload => "payload"
  }

  function KindOf(slot: Slot): string {
    match slot
    case Guessable => "schema-guessability"
    case Repeat => "degradation-over-n"
    case Latency => "latency-budget"
    case Output => "output-schema"
    case Contended => "contention"
    case Payload => "payload-bounds"
  }

  function Base(tool: string, slot: Slot): string { tool + "-" + SuffixOf(slot) }

  function Fallback(slot: Slot, ordinal: nat): string { "case-" + KindOf(slot) + "-" + Decimal(ordinal) }

  function CaseId(tool: string, slot: Slot, ordinal: nat): string {
    if ValidIdentifier(Base(tool, slot)) then Base(tool, slot) else Fallback(slot, ordinal)
  }

  // ------------------------------------------------------------ specification

  function NameAt(s: Setting, i: nat): string
    requires i < |s.catalog|
  {
    s.catalog[i].definition.name
  }

  predicate AllCandidates(s: Setting, v: seq<nat>) {
    forall i :: 0 <= i < |v| ==> v[i] < |s.catalog| && Candidate(s, s.catalog[v[i]])
  }

  /** The tools among the first `n` that get cases, in catalog order. */
  function Verified(s: Setting, n: nat): (v: seq<nat>)
    requires n <= |s.catalog|
    ensures |v| <= MAX_VERIFIED_TOOLS && AllCandidates(s, v)
    ensures forall i :: 0 <= i < |v| ==> v[i] < n
    ensures forall i, j :: 0 <= i < j < |v| ==> v[i] < v[j]
  {
    if n == 0 then []
    else
      var v := Verified(s, n - 1);
      if Candidate(s, s.catalog[n - 1]) && |v| < MAX_VERIFIED_TOOLS && s.smoke(n - 1).Some? then v + [n - 1] else v
  }

  function TotalBudget(s: Setting): nat { ClampNat(RoundUpTo(Tokens(s.encodedBytes) * 2, 100), 100, 1_000_000) }

  function HeaviestTokens(tools: seq<Tool>): nat {
    if tools == [] then 1
    else if |tools| == 1 then Tokens(tools[0].entryBytes)
    else
      var rest, last := HeaviestTokens(tools[..|tools| - 1]), Tokens(tools[|tools| - 1].entryBytes);
      if rest > last then rest else last
  }

  function ToolBudget(s: Setting): nat {
    var own := ClampNat(RoundUpTo(HeaviestTokens(s.catalog) * 2, 100), 100, 100_000);
    if own <= TotalBudget(s) then own else TotalBudget(s)
  }

  function CatalogCases(s: Setting): seq<Case> {
    [DiscoveryCost("discovery-budget", ReadOnly, ClampNat(|s.catalog| * 2, 10, 10_000),
                   ClampNat(s.encodedBytes * 2, 1000, 10_000_000)),
     TokenCost("token-budget", ReadOnly, TotalBudget(s), Some(ToolBudget(s))),
     Pagination("catalog-pagination", ReadOnly, 5),
     ProtocolNegotiation("protocol-negotiation", ReadOnly, "2000-01-01")]
    + (if s.surfaces then [SurfaceListing("declared-surfaces", ReadOnly, 5)] else [])
  }

  function ToolCases(s: Setting, i: nat, ordinal: nat): seq<Case>
    requires i < |s.catalog| && Candidate(s, s.catalog[i])
  {
    var t := s.catalog[i].definition;
    var arguments := CallArguments(s, s.catalog[i]).value;
    var latency := if s.smoke(i).Some? then s.smoke(i).value else 0;
    [SchemaGuessability(CaseId(t.name, Guessable, ordinal), ReadOnly, t.name, None, arguments),
     DegradationOverN(CaseId(t.name, Repeat, ordinal), ReadOnly, t.name, None, arguments, 5),
     LatencyBudget(CaseId(t.name, Latency, ordinal), ReadOnly, t.name, None, arguments, 3,
                   ClampNat(RoundUpTo(latency * 4, 100), 1000, 60_000))]
    + (if t.outputSchema.Some? then
         [OutputSchema(CaseId(t.name, Output, ordinal), ReadOnly, t.name, None, arguments)]
       else [])
  }

  function AllToolCases(s: Setting, v: seq<nat>): seq<Case>
    requires AllCandidates(s, v)
  {
    if v == [] then [] else AllToolCases(s, v[..|v| - 1]) + ToolCases(s, v[|v| - 1], |v|)
  }

  /** The first declared string property that can name a payload field. */
  function PayloadName(fields: seq<Field>): Option<string> {
    if fields == [] then None
    else if Get(fields[0].value, "type") == Some(Str("string")) && ValidIdentifier(fields[0].key)
    then Some(fields[0].key)
    else PayloadName(fields[1..])
  }

  function StringField(t: Tool): Option<string> {
    match Get(t.definition.inputSchema, "properties")
    case Some(Obj(fields)) => PayloadName(fields)
    case _ => None
  }

  /** The place of the first verified tool with such a property, or the first. */
  function PayloadTool(s: Setting, v: seq<nat>): (p: (nat, string))
    requires v != [] && AllCandidates(s, v)
    ensures p.0 < |v|
    ensures p.1 == "payload" || StringField(s.catalog[v[p.0]]) == Some(p.1)
  {
    var own := StringField(s.catalog[v[0]]);
    if own.Some? then (0, own.value)
    else if |v| == 1 then (0, "payload")
    else
      var (k, field) := PayloadTool(s, v[1..]);
      if StringField(s.catalog[v[k + 1]]).Some? then (k + 1, field) else (0, "payload")
  }

  function ServerCases(s: Setting, v: seq<nat>): seq<Case>
    requires AllCandidates(s, v)
  {
    if v == [] then []
    else
      var (k, field) := PayloadTool(s, v);
      var first, p := v[0], v[k];
      CandidatesAreSafe(s, s.catalog[first]);
      CandidatesAreSafe(s, s.catalog[p]);
      [Contention(CaseId(NameAt(s, first), Contended, 1), ReadOnly, NameAt(s, first), None,
                  CallArguments(s, s.catalog[first]).value),
       PayloadBounds(CaseId(NameAt(s, p), Payload, 1), ReadOnly, NameAt(s, p), None,
                     CallArguments(s, s.catalog[p]).value, field, PAYLOAD_SIZE_BYTES, false)]
  }

  function Probes(s: Setting): seq<Case> {
    var v := Verified(s, |s.catalog|);
    CatalogCases(s) + AllToolCases(s, v) + ServerCases(s, v)
  }

  // ------------------------------------------------------------------ the loop

  datatype Skipped = Skipped(tool: string, atLimit: bool)

  /** A candidate among the first `n` either gets cases or is accounted for. */
  ghost predicate Accounted(s: Setting, n: nat, skipped: seq<Skipped>)
    requires n <= |s.catalog|
  {
    forall i :: 0 <= i < n && Candidate(s, s.catalog[i]) ==>
      i in Verified(s, n) || exists k :: 0 <= k < |skipped| && skipped[k].tool == NameAt(s, i)
  }

  lemma {:induction false} Joined<T>(a: seq<T>, b: seq<T>, c: seq<T>)
    ensures (a + b) + c == a + (b + c)
  {
  }

  method BuildScaffold(s: Setting) returns (m: Document, skipped: seq<Skipped>)
    ensures m == Document(1, None, map[], Probes(s))
    ensures Accounted(s, |s.catalog|, skipped)
  {
    var probes := CatalogCases(s);
    var verified: seq<nat> := [];
    skipped := [];
    ghost var base, done := probes, [];
    for i := 0 to |s.catalog|
      invariant verified == Verified(s, i)
      invariant done == AllToolCases(s, verified) && probes == base + done
      invariant Accounted(s, i, skipped)
    {
      var cases;
      verified, cases, skipped := TryTool(s, i, verified, skipped);
      Joined(base, done, cases);
      done := done + cases;
      probes := probes + cases;
    }
    m := Document(1, None, map[], probes + ServerCases(s, verified));
  }

  /** One catalog tool: its cases when its call was just observed to succeed,
      else an entry among the skipped if it was a candidate. */
  method TryTool(s: Setting, i: nat, verified: seq<nat>, skipped: seq<Skipped>)
    returns (more: seq<nat>, cases: seq<Case>, out: seq<Skipped>)
    requires i < |s.catalog| && verified == Verified(s, i) && Accounted(s, i, skipped)
    ensures more == Verified(s, i + 1)
    ensures AllToolCases(s, more) == AllToolCases(s, verified) + cases
    ensures Accounted(s, i + 1, out)
  {
    more, cases, out := verified, [], skipped;
    var t := s.catalog[i];
    if Candidate(s, t) {
      if |verified| >= MAX_VERIFIED_TOOLS {
        out := skipped + [Skipped(t.definition.name, true)];
        assert out[|skipped|].tool == NameAt(s, i);
        StillAccounted(s, i, skipped, out);
        return;
      }
      if s.smoke(i).None? {
        out := skipped + [Skipped(t.definition.name, false)];
        assert out[|skipped|].tool == NameAt(s, i);
        StillAccounted(s, i, skipped, out);
        return;
      }
      more := verified + [i];
      cases := ToolCases(s, i, |more|);
      NowVerified(s, i, skipped);
      AllToolCasesSnoc(s, verified, i);
    } else {
      StillAccounted(s, i, skipped, skipped);
    }
  }

  lemma {:induction false} NowVerified(s: Setting, i: nat, skipped: seq<Skipped>)
    requires i < |s.catalog| && Accounted(s, i, skipped) && Verified(s, i + 1) == Verified(s, i) + [i]
    ensures Accounted(s, i + 1, skipped)
  {
    forall j | 0 <= j < i + 1 && Candidate(s, s.catalog[j])
      ensures j in Verified(s, i + 1) || exists k :: 0 <= k < |skipped| && skipped[k].tool == NameAt(s, j)
    {
      assert j in Verified(s, i) || j == i ==> j in Verified(s, i) + [i];
    }
  }

  lemma {:induction false} AllToolCasesSnoc(s: Setting, v: seq<nat>, i: nat)
    requires AllCandidates(s, v + [i]) && AllCandidates(s, v) && i < |s.catalog| && Candidate(s, s.catalog[i])
    ensures AllToolCases(s, v + [i]) == AllToolCases(s, v) + ToolCases(s, i, |v| + 1)
  {
    assert (v + [i])[..|v|] == v;
  }

  lemma {:induction false} StillAccounted(s: Setting, i: nat, skipped: seq<Skipped>, more: seq<Skipped>)
    requires i < |s.catalog| && Accounted(s, i, skipped) && Verified(s, i + 1) == Verified(s, i)
    requires skipped <= more
    requires Candidate(s, s.catalog[i]) ==> exists k :: 0 <= k < |more| && more[k].tool == NameAt(s, i)
    ensures Accounted(s, i + 1, more)
  {
    forall j | 0 <= j < i + 1 && Candidate(s, s.catalog[j])
      ensures j in Verified(s, i + 1) || exists k :: 0 <= k < |more| && more[k].tool == NameAt(s, j)
    {
      if j < i && j !in Verified(s, i) {
        var k :| 0 <= k < |skipped| && skipped[k].tool == NameAt(s, j);
        assert more[k] == skipped[k];
      }
    }
  }

  // --------------------------------------------------------- distinct case ids

  /** The last two letters of a suffix tell it from the others. */
  function Ending(slot: Slot): string {
    match slot
    case Guessable => "le"
    case Repeat => "at"
    case Latency => "cy"
    case Output => "ut"
    case Contended => "on"
    case Payload => "ad"
  }

  lemma {:induction false} BaseEnds(tool: string, slot: Slot)
    ensures
      var id := Base(tool, slot);
      && |id| >= 7 && IsAlpha(id[|id| - 1])
      && id[|id| - 2..] == Ending(slot)
      && (slot == Contended ==> id[|id| - 5] == 'n')
  {
    var suffix, id := SuffixOf(slot), Base(tool, slot);
    assert |suffix| >= 6 && suffix[|suffix| - 2..] == Ending(slot) && IsAlpha(suffix[|suffix| - 1]);
    assert id[|tool| + 1..] == suffix;
    assert id[|id| - 2..] == suffix[|suffix| - 2..];
    assert id[|id| - 1] == suffix[|suffix| - 1];
    assert slot == Contended ==> id[|id| - 5] == suffix[|suffix| - 5];
  }

  lemma {:induction false} FallbackEnds(slot: Slot, ordinal: nat)
    ensures
      var id := Fallback(slot, ordinal);
      && IsDigit(id[|id| - 1])
      && id[5] == KindOf(slot)[0]
      && id[..|KindOf(slot)| + 6] == "case-" + KindOf(slot) + "-"
      && id[|KindOf(slot)| + 6..] == Decimal(ordinal)
  {
    DecimalReadsBack(ordinal);
    assert IsDigit(Decimal(ordinal)[|Decimal(ordinal)| - 1]);
  }

  lemma {:induction false} BasesDiffer(t: string, a: Slot, u: string, b: Slot)
    requires Base(t, a) == Base(u, b)
    ensures a == b && t == u
  {
    BaseEnds(t, a);
    BaseEnds(u, b);
    assert a == b by {
      assert Ending(a) == Ending(b);
    }
    assert t == Base(t, a)[..|t|] && u == Base(u, b)[..|u|];
  }

  lemma {:induction false} FallbacksDiffer(a: Slot, m: nat, b: Slot, n: nat)
    requires Fallback(a, m) == Fallback(b, n)
    ensures a == b && m == n
  {
    FallbackEnds(a, m);
    FallbackEnds(b, n);
    assert KindOf(a)[0] == KindOf(b)[0];
    DecimalReadsBack(m);
    DecimalReadsBack(n);
  }

  lemma {:induction false} BaseIsNoFallback(t: string, a: Slot, b: Slot, n: nat)
    ensures Base(t, a) != Fallback(b, n)
  {
    BaseEnds(t, a);
    FallbackEnds(b, n);
  }

  /** Two case ids agree only in one kind, for one tool or one ordinal. */
  lemma {:induction false} CaseIdsDiffer(t: string, a: Slot, m: nat, u: string, b: Slot, n: nat)
    requires CaseId(t, a, m) == CaseId(u, b, n)
    ensures a == b && (t == u || m == n)
  {
    BaseIsNoFallback(t, a, b, n);
    BaseIsNoFallback(u, b, a, m);
    if CaseId(t, a, m) == Base(t, a) {
      BasesDiffer(t, a, u, b);
    } else {
      FallbacksDiffer(a, m, b, n);
    }
  }

  predicate IsFixed(id: string) {
    id in {"discovery-budget", "token-budget", "catalog-pagination", "protocol-negotiation", "declared-surfaces"}
  }

  lemma {:induction false} FixedEnds(id: string)
    requires IsFixed(id)
    ensures |id| >= 7 && IsAlpha(id[|id| - 1])
    ensures id[|id| - 2..] in {"et", "es"} || (id[|id| - 2..] == "on" && id[|id| - 5] == 'a')
  {
  }

  lemma {:induction false} FixedIsNoCaseId(id: string, tool: string, slot: Slot, ordinal: nat)
    requires IsFixed(id)
    ensures id != CaseId(tool, slot, ordinal)
  {
    FixedIsNoBase(id, tool, slot);
    FixedEnds(id);
    FallbackEnds(slot, ordinal);
  }

  lemma {:induction false} FixedIsNoBase(id: string, tool: string, slot: Slot)
    requires IsFixed(id)
    ensures id != Base(tool, slot)
  {
    FixedEnds(id);
    BaseEnds(tool, slot);
  }

  // ------------------------------------------------- the scaffold is accepted

  /** What discovery hands over: tool names that are valid and listed once, and
      arguments that are objects. */
  ghost predicate Measured(s: Setting) {
    && (forall i :: 0 <= i < |s.catalog| ==> ValidTool(NameAt(s, i)))
    && (forall i, j :: 0 <= i < j < |s.catalog| ==> NameAt(s, i) != NameAt(s, j))
    && (forall t :: t in s.supplied ==> s.supplied[t].Obj?)
    && (forall schema :: s.synthesize(schema).Some? ==> s.synthesize(schema).value.Obj?)
  }

  ghost predicate AllOk(cases: seq<Case>) { forall c :: c in cases ==> CaseOk(c, map[]) }

  lemma {:induction false} Identifier(s: string)
    requires s != "" && |s| <= MAX_IDENTIFIER && IsAlpha(s[0]) && AllLabelChars(s)
    ensures ValidIdentifier(s)
  {
  }

  lemma {:induction false} LabelsJoin(a: string, b: string)
    requires AllLabelChars(a) && AllLabelChars(b)
    ensures AllLabelChars(a + b)
  {
  }

  lemma {:induction false} KindIsLabel(slot: Slot)
    ensures AllLabelChars(KindOf(slot)) && |KindOf(slot)| <= 19
  {
    match slot
    case Guessable => assert AllLabelChars("schema-guessability");
    case Repeat => assert AllLabelChars("degradation-over-n");
    case Latency => assert AllLabelChars("latency-budget");
    case Output => assert AllLabelChars("output-schema");
    case Contended => assert AllLabelChars("contention");
    case Payload => assert AllLabelChars("payload-bounds");
  }

  lemma {:induction false} CaseIdValid(tool: string, slot: Slot, ordinal: nat)
    requires ordinal <= MAX_VERIFIED_TOOLS
    ensures ValidIdentifier(CaseId(tool, slot, ordinal))
  {
    DecimalReadsBack(ordinal);
    var digits, kind := Decimal(ordinal), KindOf(slot);
    assert |digits| <= 2 && AllLabelChars(digits);
    KindIsLabel(slot);
    LabelsJoin("case-", kind);
    LabelsJoin("case-" + kind, "-");
    LabelsJoin("case-" + kind + "-", digits);
    Identifier(Fallback(slot, ordinal));
  }

  lemma DiscoveryId()
    ensures ValidIdentifier("discovery-budget")
  {
    Identifier("discovery-budget");
  }

  lemma TokenId()
    ensures ValidIdentifier("token-budget")
  {
    Identifier("token-budget");
  }

  lemma PaginationId()
    ensures ValidIdentifier("catalog-pagination")
  {
    Identifier("catalog-pagination");
  }

  lemma NegotiationId()
    ensures ValidIdentifier("protocol-negotiation")
  {
    Identifier("protocol-negotiation");
  }

  lemma SurfacesId()
    ensures ValidIdentifier("declared-surfaces")
  {
    Identifier("declared-surfaces");
  }

  /** The ids written for every server have different lengths. */
  lemma FixedLengths()
    ensures |"discovery-budget"| == 16 && |"token-budget"| == 12 && |"catalog-pagination"| == 18
    ensures |"protocol-negotiation"| == 20 && |"declared-surfaces"| == 17
  {
  }

  lemma DateIsBogus()
    ensures IsDateShaped("2000-01-01") && "2000-01-01" != PROTOCOL_VERSION
  {
    assert "2000-01-01"[2] != PROTOCOL_VERSION[2];
  }

  lemma {:induction false} CatalogCasesDistinct(s: Setting)
    ensures DistinctIds(CatalogCases(s))
    ensures forall c :: c in CatalogCases(s) ==> IsFixed(c.id)
  {
    FixedLengths();
  }

  lemma {:induction false} BudgetsOk(s: Setting)
    ensures CaseOk(CatalogCases(s)[0], map[]) && CaseOk(CatalogCases(s)[1], map[])
  {
    DiscoveryId();
    TokenId();
  }

  lemma {:induction false} CatalogCasesOk(s: Setting)
    ensures AllOk(CatalogCases(s)) && DistinctIds(CatalogCases(s))
    ensures forall c :: c in CatalogCases(s) ==> IsFixed(c.id)
  {
    CatalogCasesDistinct(s);
    BudgetsOk(s);
    PaginationId();
    NegotiationId();
    DateIsBogus();
    SurfacesId();
    var cases := CatalogCases(s);
    assert CaseOk(cases[2], map[]) && CaseOk(cases[3], map[]) && (|cases| == 5 ==> CaseOk(cases[4], map[]));
  }

  lemma {:induction false} ArgumentsAreObjects(s: Setting, t: Tool)
    requires Measured(s) && Candidate(s, t)
    ensures CallArguments(s, t).Some? && CallArguments(s, t).value.Obj?
  {
  }

  lemma {:induction false} SlotsDiffer(name: string, ordinal: nat)
    ensures CaseId(name, Guessable, ordinal) != CaseId(name, Repeat, ordinal)
    ensures CaseId(name, Guessable, ordinal) != CaseId(name, Latency, ordinal)
    ensures CaseId(name, Guessable, ordinal) != CaseId(name, Output, ordinal)
    ensures CaseId(name, Repeat, ordinal) != CaseId(name, Latency, ordinal)
    ensures CaseId(name, Repeat, ordinal) != CaseId(name, Output, ordinal)
    ensures CaseId(name, Latency, ordinal) != CaseId(name, Output, ordinal)
  {
    forall a: Slot, b: Slot | a != b ensures CaseId(name, a, ordinal) != CaseId(name, b, ordinal) {
      if CaseId(name, a, ordinal) == CaseId(name, b, ordinal) {
        CaseIdsDiffer(name, a, ordinal, name, b, ordinal);
      }
    }
  }

  lemma {:induction false} ToolCasesDistinct(s: Setting, i: nat, ordinal: nat)
    requires i < |s.catalog| && Candidate(s, s.catalog[i])
    ensures DistinctIds(ToolCases(s, i, ordinal))
  {
    SlotsDiffer(NameAt(s, i), ordinal);
  }

  lemma {:induction false} ToolCasesOk(s: Setting, i: nat, ordinal: nat)
    requires Measured(s) && i < |s.catalog| && Candidate(s, s.catalog[i]) && ordinal <= MAX_VERIFIED_TOOLS
    ensures AllOk(ToolCases(s, i, ordinal))
  {
    var name := NameAt(s, i);
    CaseIdValid(name, Guessable, ordinal);
    CaseIdValid(name, Repeat, ordinal);
    CaseIdValid(name, Latency, ordinal);
    CaseIdValid(name, Output, ordinal);
    ArgumentsAreObjects(s, s.catalog[i]);
    var cases := ToolCases(s, i, ordinal);
    assert CaseOk(cases[0], map[]) && CaseOk(cases[1], map[]) && CaseOk(cases[2], map[]);
    assert |cases| == 4 ==> CaseOk(cases[3], map[]);
  }

  function IdAt(s: Setting, v: seq<nat>, j: nat, slot: Slot): string
    requires j < |v| && v[j] < |s.catalog|
  {
    CaseId(NameAt(s, v[j]), slot, j + 1)
  }

  predicate PerTool(slot: Slot) { slot != Contended && slot != Payload }

  /** The id of one of the cases of one of the tools. */
  ghost predicate OwnId(s: Setting, v: seq<nat>, id: string)
    requires AllCandidates(s, v)
  {
    exists j, slot :: 0 <= j < |v| && PerTool(slot) && id == IdAt(s, v, j, slot)
  }

  lemma {:induction false} AppendDistinct(a: seq<Case>, b: seq<Case>)
    requires DistinctIds(a) && DistinctIds(b)
    requires forall c, d :: c in a && d in b ==> c.id != d.id
    ensures DistinctIds(a + b)
  {
    forall i, j | 0 <= i < j < |a + b| ensures (a + b)[i].id != (a + b)[j].id {
      if i < |a| <= j {
        assert a[i] in a && b[j - |a|] in b;
      }
    }
  }

  lemma {:induction false} ToolCaseIds(s: Setting, v: seq<nat>)
    requires v != [] && AllCandidates(s, v)
    ensures forall c :: c in ToolCases(s, v[|v| - 1], |v|) ==> OwnId(s, v, c.id)
    ensures forall c :: c in ToolCases(s, v[|v| - 1], |v|) ==>
              exists slot :: PerTool(slot) && c.id == IdAt(s, v, |v| - 1, slot)
  {
    var n := |v| - 1;
    forall c | c in ToolCases(s, v[n], |v|) ensures exists slot :: PerTool(slot) && c.id == IdAt(s, v, n, slot) {
      assert PerTool(Guessable) && PerTool(Repeat) && PerTool(Latency) && PerTool(Output);
      assert c.id == IdAt(s, v, n, Guessable) || c.id == IdAt(s, v, n, Repeat)
          || c.id == IdAt(s, v, n, Latency) || c.id == IdAt(s, v, n, Output);
    }
  }

  lemma {:induction false} OwnIdGrows(s: Setting, v: seq<nat>, id: string)
    requires v != [] && AllCandidates(s, v) && OwnId(s, v[..|v| - 1], id)
    ensures OwnId(s, v, id)
  {
    var front := v[..|v| - 1];
    var j, slot :| 0 <= j < |front| && PerTool(slot) && id == IdAt(s, front, j, slot);
    assert id == IdAt(s, v, j, slot);
  }

  lemma {:induction false} NamesDiffer(s: Setting, x: nat, y: nat)
    requires Measured(s) && x < |s.catalog| && y < |s.catalog| && x != y
    ensures NameAt(s, x) != NameAt(s, y)
  {
  }

  /** Ids of different tools differ, whatever their cases. */
  lemma {:induction false} IdsAtDiffer(s: Setting, v: seq<nat>, i: nat, a: Slot, j: nat, b: Slot)
    requires Measured(s) && AllCandidates(s, v) && i < |v| && j < |v| && v[i] != v[j]
    ensures IdAt(s, v, i, a) != IdAt(s, v, j, b)
  {
    NamesDiffer(s, v[i], v[j]);
    if IdAt(s, v, i, a) == IdAt(s, v, j, b) {
      CaseIdsDiffer(NameAt(s, v[i]), a, i + 1, NameAt(s, v[j]), b, j + 1);
    }
  }

  lemma {:induction false} AllToolCasesOk(s: Setting, v: seq<nat>)
    requires Measured(s) && AllCandidates(s, v) && |v| <= MAX_VERIFIED_TOOLS
    ensures AllOk(AllToolCases(s, v))
  {
    if v != [] {
      AllToolCasesOk(s, v[..|v| - 1]);
      ToolCasesOk(s, v[|v| - 1], |v|);
    }
  }

  lemma {:induction false} AllToolCaseIds(s: Setting, v: seq<nat>)
    requires AllCandidates(s, v)
    ensures forall c :: c in AllToolCases(s, v) ==> OwnId(s, v, c.id)
  {
    if v != [] {
      var front := v[..|v| - 1];
      AllToolCaseIds(s, front);
      ToolCaseIds(s, v);
      forall c | c in AllToolCases(s, front) ensures OwnId(s, v, c.id) {
        OwnIdGrows(s, v, c.id);
      }
    }
  }

  lemma {:induction false} EarlierTool(s: Setting, v: seq<nat>, id: string) returns (j: nat, slot: Slot)
    requires v != [] && AllCandidates(s, v) && OwnId(s, v[..|v| - 1], id)
    ensures j < |v| - 1 && id == IdAt(s, v, j, slot)
  {
    var front := v[..|v| - 1];
    j, slot :| 0 <= j < |front| && PerTool(slot) && id == IdAt(s, front, j, slot);
    assert front[j] == v[j];
  }

  /** The last tool's ids are not those of the tools before it. */
  lemma {:induction false} LastToolIsNew(s: Setting, v: seq<nat>, id: string, slot: Slot)
    requires Measured(s) && v != [] && AllCandidates(s, v) && OwnId(s, v[..|v| - 1], id)
    requires forall i, j :: 0 <= i < j < |v| ==> v[i] != v[j]
    ensures id != IdAt(s, v, |v| - 1, slot)
  {
    var j, earlier := EarlierTool(s, v, id);
    IdsAtDiffer(s, v, j, earlier, |v| - 1, slot);
  }

  lemma {:induction false} AllToolCasesDistinct(s: Setting, v: seq<nat>)
    requires Measured(s) && AllCandidates(s, v)
    requires forall i, j :: 0 <= i < j < |v| ==> v[i] != v[j]
    ensures DistinctIds(AllToolCases(s, v))
  {
    if v != [] {
      var front, last := v[..|v| - 1], ToolCases(s, v[|v| - 1], |v|);
      AllToolCasesDistinct(s, front);
      AllToolCaseIds(s, front);
      ToolCasesDistinct(s, v[|v| - 1], |v|);
      ToolCaseIds(s, v);
      forall c, d | c in AllToolCases(s, front) && d in last ensures c.id != d.id {
        var slot :| PerTool(slot) && d.id == IdAt(s, v, |v| - 1, slot);
        LastToolIsNew(s, v, c.id, slot);
      }
      AppendDistinct(AllToolCases(s, front), last);
    }
  }

  lemma {:induction false} PayloadNameValid(fields: seq<Field>)
    ensures PayloadName(fields).Some? ==> ValidIdentifier(PayloadName(fields).value)
  {
    if fields != [] {
      PayloadNameValid(fields[1..]);
    }
  }

  lemma {:induction false} PayloadFieldValid(s: Setting, v: seq<nat>)
    requires v != [] && AllCandidates(s, v)
    ensures ValidIdentifier(PayloadTool(s, v).1)
  {
    var (k, field) := PayloadTool(s, v);
    Identifier("payload");
    match Get(s.catalog[v[k]].definition.inputSchema, "properties")
    case Some(Obj(fields)) => PayloadNameValid(fields);
    case _ =>
  }

  lemma {:induction false} ServerCasesOk(s: Setting, v: seq<nat>)
    requires Measured(s) && AllCandidates(s, v)
    ensures AllOk(ServerCases(s, v))
  {
    if v != [] {
      var k := PayloadTool(s, v).0;
      PayloadFieldValid(s, v);
      CaseIdValid(NameAt(s, v[0]), Contended, 1);
      CaseIdValid(NameAt(s, v[k]), Payload, 1);
      ArgumentsAreObjects(s, s.catalog[v[0]]);
      ArgumentsAreObjects(s, s.catalog[v[k]]);
    }
  }

  lemma {:induction false} ServerIds(s: Setting, v: seq<nat>)
    requires AllCandidates(s, v)
    ensures DistinctIds(ServerCases(s, v))
    ensures forall c :: c in ServerCases(s, v) ==>
              exists tool :: c.id == CaseId(tool, Contended, 1) || c.id == CaseId(tool, Payload, 1)
  {
    if v != [] {
      var first, p := NameAt(s, v[0]), NameAt(s, v[PayloadTool(s, v).0]);
      if CaseId(first, Contended, 1) == CaseId(p, Payload, 1) {
        CaseIdsDiffer(first, Contended, 1, p, Payload, 1);
      }
    }
  }

  lemma {:induction false} CatalogIdsAreTheirOwn(s: Setting, v: seq<nat>, c: Case, id: string)
    requires AllCandidates(s, v) && IsFixed(c.id) && OwnId(s, v, id)
    ensures c.id != id
  {
    var j, slot :| 0 <= j < |v| && PerTool(slot) && id == IdAt(s, v, j, slot);
    FixedIsNoCaseId(c.id, NameAt(s, v[j]), slot, j + 1);
  }

  lemma {:induction false} ServerIdIsItsOwn(s: Setting, v: seq<nat>, id: string, tool: string, slot: Slot)
    requires AllCandidates(s, v) && !PerTool(slot) && (IsFixed(id) || OwnId(s, v, id))
    ensures id != CaseId(tool, slot, 1)
  {
    if IsFixed(id) {
      FixedIsNoCaseId(id, tool, slot, 1);
    } else {
      var j, own :| 0 <= j < |v| && PerTool(own) && id == IdAt(s, v, j, own);
      if id == CaseId(tool, slot, 1) {
        CaseIdsDiffer(NameAt(s, v[j]), own, j + 1, tool, slot, 1);
      }
    }
  }

  lemma {:induction false} AllCasesOk(s: Setting, v: seq<nat>)
    requires Measured(s) && AllCandidates(s, v) && |v| <= MAX_VERIFIED_TOOLS
    requires forall i, j :: 0 <= i < j < |v| ==> v[i] != v[j]
    ensures DistinctIds(CatalogCases(s) + AllToolCases(s, v) + ServerCases(s, v))
    ensures AllOk(CatalogCases(s) + AllToolCases(s, v) + ServerCases(s, v))
  {
    CatalogCasesOk(s);
    AllToolCasesOk(s, v);
    AllToolCaseIds(s, v);
    AllToolCasesDistinct(s, v);
    ServerCasesOk(s, v);
    ServerIds(s, v);
    var a, b, c := CatalogCases(s), AllToolCases(s, v), ServerCases(s, v);
    forall x, y | x in a && y in b ensures x.id != y.id {
      CatalogIdsAreTheirOwn(s, v, x, y.id);
    }
    AppendDistinct(a, b);
    forall x, y | x in a + b && y in c ensures x.id != y.id {
      var tool :| y.id == CaseId(tool, Contended, 1) || y.id == CaseId(tool, Payload, 1);
      ServerIdIsItsOwn(s, v, x.id, tool, Contended);
      ServerIdIsItsOwn(s, v, x.id, tool, Payload);
    }
    AppendDistinct(a + b, c);
  }

  /** Whatever was measured and however the calls went, the scaffold passes the
      validator. */
  lemma {:induction false} ScaffoldIsAcceptable(s: Setting)
    requires Measured(s)
    ensures Acceptable(Document(1, None, map[], Probes(s)))
  {
    AllCasesOk(s, Verified(s, |s.catalog|));
    var probes := Probes(s);
    assert probes[0] == CatalogCases(s)[0];
    forall i | 0 <= i < |probes| ensures CaseOk(probes[i], map[]) {
      assert probes[i] in probes;
    }
  }
}
