/** What the scaffold writes, told from the catalog and the smoke calls alone. */
module ScaffoldMeanings {
  import opened Common
  import opened Integers
  import opened Json
  import opened Manifest
  import opened Privacy
  import opened Scaffold
  import Contract

  // ------------------------------------------------------------------ decisions

  /** No required arguments are declared, or none that can be read. */
  predicate NeedsNothing(schema: Value) {
    Get(schema, "required").Some? && Get(schema, "required").value.Arr? ==> Get(schema, "required").value.items == []
  }

  /** The arguments passed for a tool come first, then none for one that needs
      none, then what its schema yields. */
  lemma {:induction false} ArgumentsMean(s: Setting, t: Tool)
    ensures
      var name, schema, arguments := t.definition.name, t.definition.inputSchema, CallArguments(s, t);
      && (name in s.supplied ==> arguments == Some(s.supplied[name]))
      && (name !in s.supplied && NeedsNothing(schema) ==> arguments == Some(Obj([])))
      && (name !in s.supplied && !NeedsNothing(schema) ==> arguments == s.synthesize(schema))
  {
  }

  /** A selection that names others leaves a tool out. */
  predicate IsSelected(s: Setting, t: Tool) { s.selected == [] || t.definition.name in s.selected }

  /** Nothing the server says of a tool forbids calling it. */
  predicate IsHarmless(t: Tool) {
    t.definition.destructiveHint != Some(true) && t.definition.readOnlyHint != Some(false)
  }

  /** What keeps a tool from being called, in the order it is looked for, and what
      lets it be. */
  lemma {:induction false} DecisionsMean(s: Setting, t: Tool)
    ensures
      var d, hint, callable := Decide(s, t), t.definition.readOnlyHint, CallArguments(s, t).Some?;
      && (d == NotSelected <==> !IsSelected(s, t))
      && (d == DestructiveHint <==> IsSelected(s, t) && t.definition.destructiveHint == Some(true))
      && (d == NotReadOnly <==>
            IsSelected(s, t) && t.definition.destructiveHint != Some(true) && hint == Some(false))
      && (d == RequiredArguments <==> IsSelected(s, t) && IsHarmless(t) && !callable)
      && (d == ReadOnlyHint <==> IsSelected(s, t) && IsHarmless(t) && callable && hint == Some(true))
      && (d == Attested <==> IsSelected(s, t) && IsHarmless(t) && callable && hint.None? && s.confirm)
      && (d == NeedsAttestation <==> IsSelected(s, t) && IsHarmless(t) && callable && hint.None? && !s.confirm)
    ensures Candidate(s, t) <==>
      && IsSelected(s, t) && IsHarmless(t) && CallArguments(s, t).Some?
      && (t.definition.readOnlyHint == Some(true) || s.confirm)
  {
    match t.definition.readOnlyHint
    case Some(b) => assert b || !b;
    case None =>
  }

  // -------------------------------------------------------------------- budgets

  /** The least multiple of a hundred not below `x`. */
  predicate IsHundred(x: nat, r: nat) { r % 100 == 0 && x <= r < x + 100 }

  /** `x` kept between two bounds. */
  predicate IsKept(x: nat, lo: nat, hi: nat, r: nat) {
    lo <= r <= hi && (r == x || (x < lo && r == lo) || (hi < x && r == hi))
  }

  /** Four bytes to a token, a part of one counting. */
  predicate IsTokens(bytes: nat, tokens: nat) { 4 * tokens >= bytes && 4 * tokens < bytes + 4 }

  lemma {:induction false} TokensMean(bytes: nat)
    ensures IsTokens(bytes, Tokens(bytes))
  {
  }

  lemma {:induction false} ClampMeans(x: nat, lo: nat, hi: nat)
    requires lo <= hi
    ensures IsKept(x, lo, hi, ClampNat(x, lo, hi))
  {
  }

  lemma {:induction false} HeaviestMeans(tools: seq<Tool>)
    ensures tools == [] ==> HeaviestTokens(tools) == 1
    ensures forall t :: t in tools ==> Tokens(t.entryBytes) <= HeaviestTokens(tools)
    ensures tools != [] ==> exists t :: t in tools && Tokens(t.entryBytes) == HeaviestTokens(tools)
  {
    if |tools| > 1 {
      var front, last := tools[..|tools| - 1], tools[|tools| - 1];
      HeaviestMeans(front);
      assert tools == front + [last];
      var t :| t in front && Tokens(t.entryBytes) == HeaviestTokens(front);
      assert t in tools && last in tools;
    } else if |tools| == 1 {
      assert tools[0] in tools;
    }
  }

  /** The budgets leave room for twice what was measured: of the whole catalog in
      tokens, and of its heaviest entry, which never gets more than the whole. */
  lemma {:induction false} BudgetsMean(s: Setting) returns (total: nat, entry: nat)
    ensures IsHundred(2 * Tokens(s.encodedBytes), total) && IsKept(total, 100, 1_000_000, TotalBudget(s))
    ensures IsHundred(2 * HeaviestTokens(s.catalog), entry)
    ensures ToolBudget(s) <= TotalBudget(s)
    ensures IsKept(entry, 100, 100_000, ToolBudget(s))
         || (ToolBudget(s) == TotalBudget(s) && entry > TotalBudget(s))
  {
    total, entry := RoundUpTo(2 * Tokens(s.encodedBytes), 100), RoundUpTo(2 * HeaviestTokens(s.catalog), 100);
    RoundedUp(2 * Tokens(s.encodedBytes));
    RoundedUp(2 * HeaviestTokens(s.catalog));
  }

  /** The cases every catalog gets. */
  lemma {:induction false} CatalogCasesMean(s: Setting)
    ensures
      var cases := CatalogCases(s);
      && |cases| == (if s.surfaces then 5 else 4)
      && cases[0].DiscoveryCost? && cases[0].id == "discovery-budget"
      && IsKept(2 * |s.catalog|, 10, 10_000, cases[0].maxTools)
      && IsKept(2 * s.encodedBytes, 1_000, 10_000_000, cases[0].maxSchemaBytes)
      && cases[1] == TokenCost("token-budget", ReadOnly, TotalBudget(s), Some(ToolBudget(s)))
      && cases[2] == Pagination("catalog-pagination", ReadOnly, 5)
      && cases[3] == ProtocolNegotiation("protocol-negotiation", ReadOnly, "2000-01-01")
      && (s.surfaces ==> cases[4] == SurfaceListing("declared-surfaces", ReadOnly, 5))
      && forall i :: 0 <= i < |cases| ==> cases[i].access == ReadOnly
  {
    ClampMeans(2 * |s.catalog|, 10, 10_000);
    ClampMeans(2 * s.encodedBytes, 1_000, 10_000_000);
  }

  // ----------------------------------------------------------- the cases of a tool

  /** An id made from the tool's name, or from the kind and a number when that
      would be none. */
  predicate IsCaseId(id: string, tool: string, suffix: string, kind: string, ordinal: nat) {
    var base := tool + "-" + suffix;
    if ValidIdentifier(base) then id == base else id == "case-" + kind + "-" + Decimal(ordinal)
  }

  lemma {:induction false} CaseIdsMean(tool: string, slot: Slot, ordinal: nat) returns (suffix: string, kind: string)
    ensures IsCaseId(CaseId(tool, slot, ordinal), tool, suffix, kind, ordinal)
    ensures slot == Guessable ==> suffix == "guessable" && kind == "schema-guessability"
    ensures slot == Repeat ==> suffix == "repeat" && kind == "degradation-over-n"
    ensures slot == Latency ==> suffix == "latency" && kind == "latency-budget"
    ensures slot == Output ==> suffix == "output" && kind == "output-schema"
    ensures slot == Contended ==> suffix == "contention" && kind == "contention"
    ensures slot == Payload ==> suffix == "payload" && kind == "payload-bounds"
  {
    suffix, kind := SuffixOf(slot), KindOf(slot);
  }

  /** A call of the tool with the arguments it was just called with. */
  predicate Repeats(c: Case, t: Contract.ToolDefinition, arguments: Value) {
    c.access == ReadOnly && CallsTool(c) && c.tool == t.name && c.sandbox.None? && c.arguments == arguments
  }

  /** A verified tool gets a case of each kind, called as it was just called; the
      latency budget is four times what was measured, in whole tenths of a second. */
  lemma {:induction false} ToolCasesMean(s: Setting, i: nat, ordinal: nat)
    requires i < |s.catalog| && Candidate(s, s.catalog[i]) && s.smoke(i).Some?
    ensures
      var t, arguments := s.catalog[i].definition, CallArguments(s, s.catalog[i]).value;
      var cases := ToolCases(s, i, ordinal);
      && |cases| == (if t.outputSchema.Some? then 4 else 3)
      && Repeats(cases[0], t, arguments) && cases[0].SchemaGuessability?
      && cases[0].id == CaseId(t.name, Guessable, ordinal)
      && Repeats(cases[1], t, arguments) && cases[1].DegradationOverN? && cases[1].maxAttempts == 5
      && cases[1].id == CaseId(t.name, Repeat, ordinal)
      && Repeats(cases[2], t, arguments) && cases[2].LatencyBudget? && cases[2].attempts == 3
      && cases[2].id == CaseId(t.name, Latency, ordinal)
      && IsLatencyBudget(s.smoke(i).value, cases[2].maxLatencyMs)
      && (t.outputSchema.Some? ==>
            && Repeats(cases[3], t, arguments) && cases[3].OutputSchema?
            && cases[3].id == CaseId(t.name, Output, ordinal))
  {
    LatencyBudgetMeans(s.smoke(i).value);
  }

  ghost predicate IsLatencyBudget(measured: nat, budget: nat) {
    exists r :: IsHundred(4 * measured, r) && IsKept(r, 1_000, 60_000, budget)
  }

  lemma {:induction false} LatencyBudgetMeans(measured: nat)
    ensures IsLatencyBudget(measured, ClampNat(RoundUpTo(measured * 4, 100), 1_000, 60_000))
  {
    var r := RoundUpTo(measured * 4, 100);
    RoundedUp(measured * 4);
    ClampMeans(r, 1_000, 60_000);
    assert IsHundred(4 * measured, r);
  }

  // ------------------------------------------------------------------ server cases

  /** A property that can carry a payload. */
  predicate CarriesText(f: Field) {
    Get(f.value, "type").Some? && Get(f.value, "type").value == Str("string") && ValidIdentifier(f.key)
  }

  /** The first property that can carry a payload. */
  lemma {:induction false} PayloadNameMeans(fields: seq<Field>)
    ensures PayloadName(fields).None? <==> forall i :: 0 <= i < |fields| ==> !CarriesText(fields[i])
    ensures PayloadName(fields).Some? ==> exists i :: 0 <= i < |fields| && IsFirstCarrier(fields, i)
  {
    if fields != [] {
      PayloadNameMeans(fields[1..]);
      if !CarriesText(fields[0]) && PayloadName(fields[1..]).Some? {
        var i :| 0 <= i < |fields| - 1 && IsFirstCarrier(fields[1..], i);
        assert forall k :: 0 < k <= i ==> fields[k] == fields[1..][k - 1];
        assert IsFirstCarrier(fields, i + 1);
      } else if CarriesText(fields[0]) {
        assert IsFirstCarrier(fields, 0);
      }
      assert forall i :: 0 < i < |fields| ==> fields[i] == fields[1..][i - 1];
    }
  }

  predicate IsFirstCarrier(fields: seq<Field>, i: nat)
    requires i < |fields|
  {
    && CarriesText(fields[i]) && PayloadName(fields) == Some(fields[i].key)
    && forall k :: 0 <= k < i ==> !CarriesText(fields[k])
  }

  /** The properties a tool declares. */
  function PropertiesOf(t: Tool): seq<Field> {
    var properties := Get(t.definition.inputSchema, "properties");
    if properties.Some? && properties.value.Obj? then properties.value.fields else []
  }

  /** The payload goes to the first verified tool with such a property, or to the
      first one under the name `payload`. */
  lemma {:induction false} PayloadToolMeans(s: Setting, v: seq<nat>)
    requires v != [] && AllCandidates(s, v)
    ensures
      var (k, field) := PayloadTool(s, v);
      && k < |v|
      && (if forall i :: 0 <= i < |v| ==> PayloadName(PropertiesOf(s.catalog[v[i]])).None?
          then k == 0 && field == "payload"
          else
            && PayloadName(PropertiesOf(s.catalog[v[k]])) == Some(field)
            && forall i :: 0 <= i < k ==> PayloadName(PropertiesOf(s.catalog[v[i]])).None?)
  {
    FieldIsPayloadName(s.catalog[v[0]]);
    if |v| > 1 && StringField(s.catalog[v[0]]).None? {
      PayloadToolMeans(s, v[1..]);
      FieldIsPayloadName(s.catalog[v[PayloadTool(s, v[1..]).0 + 1]]);
      assert forall i :: 0 < i < |v| ==> v[i] == v[1..][i - 1];
    }
  }

  lemma {:induction false} FieldIsPayloadName(t: Tool)
    ensures StringField(t) == PayloadName(PropertiesOf(t))
  {
    assert PayloadName([]).None?;
  }

  /** Once anything was verified, the first tool is called by several at once, and
      one gets a payload of a million bytes. */
  lemma {:induction false} ServerCasesMean(s: Setting, v: seq<nat>)
    requires AllCandidates(s, v)
    ensures v == [] ==> ServerCases(s, v) == []
    ensures v != [] ==>
      var cases, (k, field) := ServerCases(s, v), PayloadTool(s, v);
      var first, p := s.catalog[v[0]], s.catalog[v[k]];
      && |cases| == 2
      && cases[0].Contention? && cases[0].tool == first.definition.name
      && Some(cases[0].arguments) == CallArguments(s, first)
      && cases[0].id == CaseId(first.definition.name, Contended, 1)
      && cases[1].PayloadBounds? && cases[1].tool == p.definition.name
      && Some(cases[1].arguments) == CallArguments(s, p)
      && cases[1].field == field && cases[1].sizeBytes == 1_000_000 && !cases[1].expectHandled
      && cases[1].id == CaseId(p.definition.name, Payload, 1)
      && cases[0].access == cases[1].access == ReadOnly && cases[0].sandbox.None? && cases[1].sandbox.None?
  {
  }

  // --------------------------------------------------------------- what is verified

  /** Of the first `n` tools those are verified that may be called and answered,
      the first twenty of them. */
  lemma {:induction false} VerifiedMeans(s: Setting, n: nat, i: nat)
    requires i < n <= |s.catalog|
    ensures i in Verified(s, n) <==> Candidate(s, s.catalog[i]) && s.smoke(i).Some? && |Verified(s, i)| < 20
  {
    var v := Verified(s, n - 1);
    if i < n - 1 {
      VerifiedMeans(s, n - 1, i);
    }
  }

  // -------------------------------------------------------------------- the whole

  /** The scaffold: the catalog's cases, then each verified tool's in order and
      numbered from one, then the server's. */
  lemma {:induction false} ProbesMean(s: Setting, k: nat)
    requires k < |Verified(s, |s.catalog|)|
    ensures
      var v := Verified(s, |s.catalog|);
      && Probes(s) == CatalogCases(s) + AllToolCases(s, v) + ServerCases(s, v)
      && AllToolCases(s, v) == AllToolCases(s, v[..k]) + ToolCases(s, v[k], k + 1) + CasesAfter(s, v, k + 1)
  {
    CasesSplit(s, Verified(s, |s.catalog|), k);
  }

  /** The cases of the verified tools from the `k`-th on. */
  function CasesAfter(s: Setting, v: seq<nat>, k: nat): seq<Case>
    requires k <= |v| && AllCandidates(s, v)
    decreases |v| - k
  {
    if k == |v| then [] else ToolCases(s, v[k], k + 1) + CasesAfter(s, v, k + 1)
  }

  lemma {:induction false} CasesSplit(s: Setting, v: seq<nat>, k: nat)
    requires k < |v| && AllCandidates(s, v)
    ensures AllToolCases(s, v) == AllToolCases(s, v[..k]) + ToolCases(s, v[k], k + 1) + CasesAfter(s, v, k + 1)
    decreases |v| - k
  {
    var before, own, after := AllToolCases(s, v[..k]), ToolCases(s, v[k], k + 1), CasesAfter(s, v, k + 1);
    OneMore(s, v, k);
    if k + 1 < |v| {
      CasesSplit(s, v, k + 1);
      assert (before + own) + after == before + own + after;
    } else {
      assert v[..k + 1] == v;
      assert after == [];
    }
  }

  lemma {:induction false} OneMore(s: Setting, v: seq<nat>, k: nat)
    requires k < |v| && AllCandidates(s, v)
    ensures AllToolCases(s, v[..k + 1]) == AllToolCases(s, v[..k]) + ToolCases(s, v[k], k + 1)
  {
    assert v[..k + 1][..k] == v[..k];
  }
}
