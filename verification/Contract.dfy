/** The catalog's contract with its callers, and the classification of what
    changed between two of them (src/catalog_contract.rs). */
module Contract {
  import opened Common
  import opened Json
  import Canonical
  import Constraints
  import StableSort
  import StringOrder

  datatype ToolClass = ReadOnly | Writer | Unannotated

  datatype ToolDefinition = ToolDefinition(
    name: string,
    inputSchema: Value,
    outputSchema: Option<Value>,
    readOnlyHint: Option<bool>,
    destructiveHint: Option<bool>)

  datatype ToolContract = ToolContract(
    name: string,
    class_: ToolClass,
    required: set<string>,
    parameters: map<string, string>,
    output: Option<string>)

  // ---------------------------------------------------- reading a definition

  function ClassOf(tool: ToolDefinition): ToolClass {
    if tool.readOnlyHint == Some(false) || tool.destructiveHint == Some(true) then Writer
    else if tool.readOnlyHint == Some(true) then ReadOnly
    else Unannotated
  }

  function ConstraintText(schema: Value, root: Value): string {
    Canonical.CanonicalText(Constraints.Constraints(schema, root, 0, false))
  }

  function Strings(items: seq<Value>): set<string> {
    set i | 0 <= i < |items| && items[i].Str? :: items[i].chars
  }

  /** The entries of `required` that are strings. */
  function RequiredNames(schema: Value): set<string> {
    match Get(schema, "required")
    case Some(Arr(items)) => Strings(items)
    case _ => {}
  }

  /** A name is required when the list of required names holds it as a text. */
  lemma {:induction false} RequiredMeans(schema: Value, name: string)
    ensures name in RequiredNames(schema) <==>
      && Get(schema, "required").Some? && Get(schema, "required").value.Arr?
      && Str(name) in Get(schema, "required").value.items
  {
  }

  function ParameterTexts(fields: seq<Field>, root: Value, digest: string -> string): map<string, string> {
    if fields == [] then map[]
    else
      var last := fields[|fields| - 1];
      ParameterTexts(fields[..|fields| - 1], root, digest)
        [digest(last.key) := digest(ConstraintText(last.value, root))]
  }

  /** `ToolContract::of`, over any digest. */
  function Of(tool: ToolDefinition, digest: string -> string): ToolContract {
    ToolContract(
      tool.name,
      ClassOf(tool),
      set name | name in RequiredNames(tool.inputSchema) :: digest(name),
      (match Get(tool.inputSchema, "properties")
       case Some(Obj(fields)) => ParameterTexts(fields, tool.inputSchema, digest)
       case _ => map[]),
      match tool.outputSchema
      case Some(schema) => Some(digest(ConstraintText(schema, schema)))
      case None => None)
  }

  /** Rewording a tool's prose leaves its contract as it was. */
  lemma {:induction false} ProseEditKeepsContract(before: ToolDefinition, after: ToolDefinition,
                                                  digest: string -> string)
    requires after == before.(inputSchema := after.inputSchema)
    requires Constraints.SameButProse(before.inputSchema, after.inputSchema, false)
    requires forall r :: r in Constraints.VisitedRefs(before.inputSchema, false) ==>
               Constraints.ReferenceOffProse(before.inputSchema, r)
    ensures Of(before, digest) == Of(after, digest)
  {
    var a, b := before.inputSchema, after.inputSchema;
    if a.Obj? {
      Constraints.KeptLookup(a.fields, b.fields, false, "required");
      Constraints.KeptLookup(a.fields, b.fields, false, "properties");
      var ra, rb := Get(a, "required"), Get(b, "required");
      if ra.Some? && ra.value.Arr? {
        Constraints.SameItemsAt(ra.value.items, rb.value.items);
        assert Strings(ra.value.items) == Strings(rb.value.items);
      }
      var pa, pb := Get(a, "properties"), Get(b, "properties");
      if pa.Some? && pa.value.Obj? {
        Constraints.LookupRefs(a.fields, false, "properties");
        assert Constraints.VisitedRefs(pa.value, true) <= Constraints.VisitedRefs(a, false);
        SameParameters(pa.value.fields, pb.value.fields, a, b, digest);
      }
    }
  }

  lemma {:induction false} NamesAligned(a: seq<Field>, b: seq<Field>)
    requires Constraints.SameKept(a, b, true)
    ensures |a| == |b|
    ensures forall i :: 0 <= i < |a| ==>
              a[i].key == b[i].key && Constraints.SameButProse(a[i].value, b[i].value, false)
  {
    if a != [] && b != [] {
      NamesAligned(a[1..], b[1..]);
    }
  }

  lemma {:induction false} FieldRefsAt(fields: seq<Field>, i: nat)
    requires i < |fields|
    ensures Constraints.VisitedRefs(fields[i].value, false) <= Constraints.FieldRefs(fields, true)
  {
    if i > 0 {
      FieldRefsAt(fields[1..], i - 1);
    }
  }

  lemma {:induction false} SameParameters(a: seq<Field>, b: seq<Field>, ra: Value, rb: Value, digest: string -> string)
    requires Constraints.SameKept(a, b, true) && Constraints.SameButProse(ra, rb, false)
    requires Constraints.FieldRefs(a, true) <= Constraints.VisitedRefs(ra, false)
    requires forall r :: r in Constraints.VisitedRefs(ra, false) ==> Constraints.ReferenceOffProse(ra, r)
    ensures ParameterTexts(a, ra, digest) == ParameterTexts(b, rb, digest)
  {
    NamesAligned(a, b);
    forall i | 0 <= i < |a| ensures ConstraintText(a[i].value, ra) == ConstraintText(b[i].value, rb) {
      FieldRefsAt(a, i);
      Constraints.ProseEditsAreInvisible(a[i].value, b[i].value, ra, rb);
    }
    SameTexts(a, b, ra, rb, digest);
  }

  lemma {:induction false} SameTexts(a: seq<Field>, b: seq<Field>, ra: Value, rb: Value,
                                     digest: string -> string)
    requires |a| == |b|
    requires forall i :: 0 <= i < |a| ==>
               a[i].key == b[i].key && ConstraintText(a[i].value, ra) == ConstraintText(b[i].value, rb)
    ensures ParameterTexts(a, ra, digest) == ParameterTexts(b, rb, digest)
  {
    if a != [] {
      SameTexts(a[..|a| - 1], b[..|b| - 1], ra, rb, digest);
    }
  }

  // ------------------------------------------------------------ the changes

  datatype Severity = Breaking | Review | Compatible

  datatype ChangeKind =
    | ToolRemoved
    | ToolAdded
    | ParameterRequired
    | ParameterOptional
    | ParameterRemoved
    | ParameterAdded
    | ParameterChanged
    | ClassChanged(before: ToolClass, after: ToolClass)
    | OutputSchemaRemoved
    | OutputSchemaAdded
    | OutputSchemaChanged

  function SeverityOf(kind: ChangeKind): Severity {
    match kind
    case ToolRemoved | ParameterRequired | ParameterRemoved | OutputSchemaRemoved => Breaking
    case ClassChanged(_, Writer) => Breaking
    case ClassChanged(ReadOnly, Unannotated) => Breaking
    case ClassChanged(_, _) => Compatible
    case ParameterChanged | OutputSchemaChanged => Review
    case ToolAdded | ParameterOptional | ParameterAdded | OutputSchemaAdded => Compatible
  }

  datatype Change = Change(tool: string, kind: ChangeKind, count: nat)

  function Rank(s: Severity): nat {
    match s case Breaking => 0 case Review => 1 case Compatible => 2
  }

  /** Breaking first, then by tool. */
  predicate ChangeLe(a: Change, b: Change) {
    var x, y := Rank(SeverityOf(a.kind)), Rank(SeverityOf(b.kind));
    x < y || (x == y && StringOrder.Le(a.tool, b.tool))
  }

  function Find(tools: seq<ToolContract>, name: string): (r: Option<ToolContract>)
    ensures r.Some? ==> r.value in tools && r.value.name == name
    ensures r.None? ==> forall t :: t in tools ==> t.name != name
  {
    if tools == [] then None
    else if tools[0].name == name then Some(tools[0])
    else Find(tools[1..], name)
  }

  /** `push`: a change is listed only when something changed. */
  function Pushed(tool: string, kind: ChangeKind, count: nat): seq<Change> {
    if count > 0 then [Change(tool, kind, count)] else []
  }

  function NewlyRequired(before: ToolContract, after: ToolContract): set<string> {
    after.required - before.required
  }

  function NewlyOptional(before: ToolContract, after: ToolContract): set<string> {
    set p | p in before.required - after.required && p in after.parameters
  }

  function Removed(before: ToolContract, after: ToolContract): set<string> {
    set p | p in before.parameters && p !in after.parameters
  }

  function Added(before: ToolContract, after: ToolContract): set<string> {
    set p | p in after.parameters && p !in before.parameters && p !in after.required
  }

  function Reconstrained(before: ToolContract, after: ToolContract): set<string> {
    set p | p in before.parameters && p in after.parameters && after.parameters[p] != before.parameters[p]
  }

  function OutputChange(before: Option<string>, after: Option<string>): Option<ChangeKind> {
    match (before, after)
    case (Some(_), None) => Some(OutputSchemaRemoved)
    case (None, Some(_)) => Some(OutputSchemaAdded)
    case (Some(a), Some(b)) => if a != b then Some(OutputSchemaChanged) else None
    case (None, None) => None
  }

  function ToolChanges(before: ToolContract, after: ToolContract): seq<Change> {
    var name := before.name;
    var output := OutputChange(before.output, after.output);
    (if before.class_ != after.class_ then [Change(name, ClassChanged(before.class_, after.class_), 1)] else [])
    + Pushed(name, ParameterRequired, |NewlyRequired(before, after)|)
    + Pushed(name, ParameterOptional, |NewlyOptional(before, after)|)
    + Pushed(name, ParameterRemoved, |Removed(before, after)|)
    + Pushed(name, ParameterAdded, |Added(before, after)|)
    + Pushed(name, ParameterChanged, |Reconstrained(before, after)|)
    + (if output.Some? then [Change(name, output.value, 1)] else [])
  }

  /** What one baseline tool contributes to the list. */
  function Contribution(before: ToolContract, current: seq<ToolContract>): seq<Change> {
    match Find(current, before.name)
    case None => [Change(before.name, ToolRemoved, 1)]
    case Some(after) => ToolChanges(before, after)
  }

  function BaselineChanges(baseline: seq<ToolContract>, current: seq<ToolContract>): seq<Change> {
    if baseline == [] then []
    else
      var n := |baseline| - 1;
      BaselineChanges(baseline[..n], current) + Contribution(baseline[n], current)
  }

  function AddedTools(baseline: seq<ToolContract>, current: seq<ToolContract>): seq<Change> {
    if current == [] then []
    else
      var n := |current| - 1;
      AddedTools(baseline, current[..n])
      + if Find(baseline, current[n].name).None? then [Change(current[n].name, ToolAdded, 1)] else []
  }

  function Compare(baseline: seq<ToolContract>, current: seq<ToolContract>): seq<Change> {
    StableSort.Sort(BaselineChanges(baseline, current) + AddedTools(baseline, current), ChangeLe)
  }

  method ListToolChanges(before: ToolContract, after: ToolContract) returns (changes: seq<Change>)
    ensures changes == ToolChanges(before, after)
  {
    changes :=
      if before.class_ != after.class_ then [Change(before.name, ClassChanged(before.class_, after.class_), 1)] else [];
    changes := changes + Pushed(before.name, ParameterRequired, |NewlyRequired(before, after)|);
    changes := changes + Pushed(before.name, ParameterOptional, |NewlyOptional(before, after)|);
    changes := changes + Pushed(before.name, ParameterRemoved, |Removed(before, after)|);
    changes := changes + Pushed(before.name, ParameterAdded, |Added(before, after)|);
    changes := changes + Pushed(before.name, ParameterChanged, |Reconstrained(before, after)|);
    var output := OutputChange(before.output, after.output);
    changes := changes + if output.Some? then [Change(before.name, output.value, 1)] else [];
  }

  /** `compare`: collect the changes tool by tool, then sort the list. */
  method CompareCatalogs(baseline: seq<ToolContract>, current: seq<ToolContract>)
    returns (changes: seq<Change>)
    ensures changes == Compare(baseline, current)
  {
    changes := [];
    for i := 0 to |baseline|
      invariant changes == BaselineChanges(baseline[..i], current)
    {
      var before := baseline[i];
      assert baseline[..i + 1][..i] == baseline[..i];
      var found := Find(current, before.name);
      if found.None? {
        changes := changes + [Change(before.name, ToolRemoved, 1)];
        continue;
      }
      var own := ListToolChanges(before, found.value);
      changes := changes + own;
    }
    assert baseline[..|baseline|] == baseline;
    var added := [];
    for i := 0 to |current|
      invariant added == AddedTools(baseline, current[..i])
    {
      assert current[..i + 1][..i] == current[..i];
      if Find(baseline, current[i].name).None? {
        added := added + [Change(current[i].name, ToolAdded, 1)];
      }
    }
    assert current[..|current|] == current;
    changes := StableSort.Sort(changes + added, ChangeLe);
  }

  // ------------------------------------------- what the listed changes mean

  lemma ChangeOrder()
    ensures StableSort.IsTotalPreorder(ChangeLe)
  {
    forall a, b ensures ChangeLe(a, b) || ChangeLe(b, a) { StringOrder.Total(a.tool, b.tool); }
    forall a, b, c | ChangeLe(a, b) && ChangeLe(b, c) ensures ChangeLe(a, c) {
      if StringOrder.Le(a.tool, b.tool) && StringOrder.Le(b.tool, c.tool) {
        StringOrder.Transitive(a.tool, b.tool, c.tool);
      }
    }
  }

  /** What breaks callers comes before what needs a look, and that before the
      rest; within each, tools come by name. */
  predicate ListedBefore(a: Change, b: Change) {
    var x, y := SeverityOf(a.kind), SeverityOf(b.kind);
    || (x == Breaking && y != Breaking)
    || (x == Review && y == Compatible)
    || (x == y && StringOrder.Le(a.tool, b.tool))
  }

  /** The list is ordered by severity then tool, and sorting loses nothing. */
  lemma {:induction false} CompareIsOrdered(baseline: seq<ToolContract>, current: seq<ToolContract>)
    ensures
      var changes := Compare(baseline, current);
      && (forall i, j :: 0 <= i < j < |changes| ==>
            && ListedBefore(changes[i], changes[j])
            && (SeverityOf(changes[i].kind) == SeverityOf(changes[j].kind) ==>
                  StringOrder.ComesFirst(changes[i].tool, changes[j].tool)))
      && multiset(changes) == multiset(BaselineChanges(baseline, current) + AddedTools(baseline, current))
  {
    CompareIsSorted(baseline, current);
    var changes := Compare(baseline, current);
    forall i, j | 0 <= i < j < |changes|
      ensures ListedBefore(changes[i], changes[j])
      ensures SeverityOf(changes[i].kind) == SeverityOf(changes[j].kind) ==>
        StringOrder.ComesFirst(changes[i].tool, changes[j].tool)
    {
      assert ChangeLe(changes[i], changes[j]);
      StringOrder.LeMeans(changes[i].tool, changes[j].tool);
    }
  }

  lemma {:induction false} CompareIsSorted(baseline: seq<ToolContract>, current: seq<ToolContract>)
    ensures StableSort.IsSorted(Compare(baseline, current), ChangeLe)
    ensures multiset(Compare(baseline, current))
         == multiset(BaselineChanges(baseline, current) + AddedTools(baseline, current))
  {
    ChangeOrder();
    var raw := BaselineChanges(baseline, current) + AddedTools(baseline, current);
    StableSort.SortSorted(raw, ChangeLe);
    StableSort.SortMultiset(raw, ChangeLe);
  }

  /** Some change of kind `kind` is listed for tool `name`. */
  ghost predicate Lists(changes: seq<Change>, name: string, kind: ChangeKind) {
    exists c :: c in changes && c.tool == name && c.kind == kind
  }

  /** What a listed change says about the two catalogs. */
  ghost predicate Happened(baseline: seq<ToolContract>, current: seq<ToolContract>, name: string, kind: ChangeKind) {
    if kind.ToolAdded? then
      Find(baseline, name).None? && Find(current, name).Some?
    else
      BaselineHappened(baseline, Find(current, name), name, kind)
  }

  ghost predicate BaselineHappened(baseline: seq<ToolContract>, found: Option<ToolContract>, name: string,
                                   kind: ChangeKind)
  {
    exists before :: before in baseline && before.name == name && ToolHappened(before, found, kind)
  }

  ghost predicate ToolHappened(before: ToolContract, found: Option<ToolContract>, kind: ChangeKind) {
    if kind.ToolRemoved? then found.None?
    else
      && found.Some?
      && var after := found.value;
         match kind
         case ToolRemoved | ToolAdded => false
         case ParameterRequired => exists p :: p in after.required && p !in before.required
         case ParameterOptional =>
           exists p :: p in before.required && p !in after.required && p in after.parameters
         case ParameterRemoved => exists p :: p in before.parameters && p !in after.parameters
         case ParameterAdded =>
           exists p :: p in after.parameters && p !in before.parameters && p !in after.required
         case ParameterChanged =>
           exists p :: p in before.parameters && p in after.parameters && before.parameters[p] != after.parameters[p]
         case ClassChanged(x, y) => x != y && before.class_ == x && after.class_ == y
         case OutputSchemaRemoved => before.output.Some? && after.output.None?
         case OutputSchemaAdded => before.output.None? && after.output.Some?
         case OutputSchemaChanged =>
           before.output.Some? && after.output.Some? && before.output != after.output
  }

  lemma {:induction false} ListsConcat(a: seq<Change>, b: seq<Change>, name: string, kind: ChangeKind)
    ensures Lists(a + b, name, kind) <==> Lists(a, name, kind) || Lists(b, name, kind)
  {
  }

  lemma {:induction false} ListedToolChange(before: ToolContract, after: ToolContract, c: Change)
    requires c in ToolChanges(before, after)
    ensures c.tool == before.name && ToolHappened(before, Some(after), c.kind)
    ensures c.count == CountOf(before, after, c.kind)
  {
    AffectedAre(before, after);
    var tool := before.name;
    var output := OutputChange(before.output, after.output);
    var p0 :=
      if before.class_ != after.class_ then [Change(tool, ClassChanged(before.class_, after.class_), 1)] else [];
    var p1 := Pushed(tool, ParameterRequired, |NewlyRequired(before, after)|);
    var p2 := Pushed(tool, ParameterOptional, |NewlyOptional(before, after)|);
    var p3 := Pushed(tool, ParameterRemoved, |Removed(before, after)|);
    var p4 := Pushed(tool, ParameterAdded, |Added(before, after)|);
    var p5 := Pushed(tool, ParameterChanged, |Reconstrained(before, after)|);
    var p6 := if output.Some? then [Change(tool, output.value, 1)] else [];
    InSeven(p0, p1, p2, p3, p4, p5, p6, c);
  }

  lemma {:induction false} InSeven<T>(p0: seq<T>, p1: seq<T>, p2: seq<T>, p3: seq<T>, p4: seq<T>, p5: seq<T>,
                                      p6: seq<T>, x: T)
    requires x in p0 + p1 + p2 + p3 + p4 + p5 + p6
    ensures x in p0 || x in p1 || x in p2 || x in p3 || x in p4 || x in p5 || x in p6
  {
    assert x in p0 + p1 + p2 + p3 + p4 + p5 || x in p6;
    assert x in p0 + p1 + p2 + p3 || x in p4 || x in p5 || x in p6;
  }

  /** The names that changed the way `kind` says. */
  function Affected(before: ToolContract, after: ToolContract, kind: ChangeKind): set<string> {
    match kind
    case ParameterRequired => set p | p in after.required && p !in before.required
    case ParameterOptional => set p | p in before.required && p !in after.required && p in after.parameters
    case ParameterRemoved => set p | p in before.parameters.Keys && p !in after.parameters.Keys
    case ParameterAdded =>
      set p | p in after.parameters.Keys && p !in before.parameters.Keys && p !in after.required
    case ParameterChanged =>
      set p | p in before.parameters && p in after.parameters && before.parameters[p] != after.parameters[p]
    case _ => {}
  }

  /** How many things changed the way `kind` says. */
  function CountOf(before: ToolContract, after: ToolContract, kind: ChangeKind): nat {
    if kind.ParameterRequired? || kind.ParameterOptional? || kind.ParameterRemoved? || kind.ParameterAdded?
       || kind.ParameterChanged?
    then |Affected(before, after, kind)| else 1
  }

  lemma {:induction false} AffectedAre(before: ToolContract, after: ToolContract)
    ensures Affected(before, after, ParameterRequired) == NewlyRequired(before, after)
    ensures Affected(before, after, ParameterOptional) == NewlyOptional(before, after)
    ensures Affected(before, after, ParameterRemoved) == Removed(before, after)
    ensures Affected(before, after, ParameterAdded) == Added(before, after)
    ensures Affected(before, after, ParameterChanged) == Reconstrained(before, after)
  {
  }

  lemma {:induction false} HappenedAffects(before: ToolContract, after: ToolContract)
    ensures ToolHappened(before, Some(after), ParameterRequired) <==> NewlyRequired(before, after) != {}
    ensures ToolHappened(before, Some(after), ParameterOptional) <==> NewlyOptional(before, after) != {}
    ensures ToolHappened(before, Some(after), ParameterRemoved) <==> Removed(before, after) != {}
    ensures ToolHappened(before, Some(after), ParameterAdded) <==> Added(before, after) != {}
    ensures ToolHappened(before, Some(after), ParameterChanged) <==> Reconstrained(before, after) != {}
  {
    if p :| p in after.required && p !in before.required {
      assert p in NewlyRequired(before, after);
    }
    if p :| p in before.required && p !in after.required && p in after.parameters {
      assert p in NewlyOptional(before, after);
    }
    if p :| p in before.parameters && p !in after.parameters {
      assert p in Removed(before, after);
    }
    if p :| p in after.parameters && p !in before.parameters && p !in after.required {
      assert p in Added(before, after);
    }
    if p :| p in before.parameters && p in after.parameters && before.parameters[p] != after.parameters[p] {
      assert p in Reconstrained(before, after);
    }
  }

  lemma {:induction false} HappenedIsListed(before: ToolContract, after: ToolContract, kind: ChangeKind)
    requires ToolHappened(before, Some(after), kind)
    ensures Change(before.name, kind, CountOf(before, after, kind)) in ToolChanges(before, after)
  {
    AffectedAre(before, after);
    HappenedAffects(before, after);
  }

  lemma {:induction false} ToolChangesMean(before: ToolContract, after: ToolContract, name: string, kind: ChangeKind)
    ensures Lists(ToolChanges(before, after), name, kind) <==>
            before.name == name && ToolHappened(before, Some(after), kind)
  {
    if Lists(ToolChanges(before, after), name, kind) {
      var c :| c in ToolChanges(before, after) && c.tool == name && c.kind == kind;
      ListedToolChange(before, after, c);
    }
    if before.name == name && ToolHappened(before, Some(after), kind) {
      HappenedIsListed(before, after, kind);
    }
  }

  lemma {:induction false} OneMeans(l: seq<Change>, name: string, kind: ChangeKind)
    requires |l| <= 1
    ensures Lists(l, name, kind) <==> l != [] && l[0].tool == name && l[0].kind == kind
  {
    assert l != [] ==> l[0] in l;
  }

  lemma {:induction false} ContributionMeans(before: ToolContract, current: seq<ToolContract>, name: string,
                                             kind: ChangeKind)
    ensures Lists(Contribution(before, current), name, kind) <==>
            before.name == name && ToolHappened(before, Find(current, name), kind)
  {
    match Find(current, before.name)
    case None => OneMeans([Change(before.name, ToolRemoved, 1)], name, kind);
    case Some(after) => ToolChangesMean(before, after, name, kind);
  }

  lemma {:induction false} BaselineChangesMean(baseline: seq<ToolContract>, current: seq<ToolContract>,
                                               name: string, kind: ChangeKind)
    ensures Lists(BaselineChanges(baseline, current), name, kind) <==>
            BaselineHappened(baseline, Find(current, name), name, kind)
  {
    if baseline != [] {
      var n := |baseline| - 1;
      BaselineChangesMean(baseline[..n], current, name, kind);
      ContributionMeans(baseline[n], current, name, kind);
      ListsConcat(BaselineChanges(baseline[..n], current), Contribution(baseline[n], current), name, kind);
      HappenedSnoc(baseline[..n], baseline[n], Find(current, name), name, kind);
      assert baseline == baseline[..n] + [baseline[n]];
    }
  }

  lemma {:induction false} HappenedSnoc(bs: seq<ToolContract>, b: ToolContract, found: Option<ToolContract>,
                                        name: string,
                     kind: ChangeKind)
    ensures BaselineHappened(bs + [b], found, name, kind) <==>
            BaselineHappened(bs, found, name, kind) || (b.name == name && ToolHappened(b, found, kind))
  {
    assert b in bs + [b];
  }

  lemma {:induction false} AddedToolsMean(baseline: seq<ToolContract>, current: seq<ToolContract>,
                                          name: string, kind: ChangeKind)
    ensures Lists(AddedTools(baseline, current), name, kind) <==>
            kind.ToolAdded? && Find(baseline, name).None? && exists t :: t in current && t.name == name
  {
    if current != [] {
      var n := |current| - 1;
      AddedToolsMean(baseline, current[..n], name, kind);
      assert current == current[..n] + [current[n]];
      var last := if Find(baseline, current[n].name).None? then [Change(current[n].name, ToolAdded, 1)] else [];
      assert Find(baseline, current[n].name).None? ==> Change(current[n].name, ToolAdded, 1) in last;
      var front := AddedTools(baseline, current[..n]);
      assert Lists(front + last, name, kind) <==> Lists(front, name, kind) || Lists(last, name, kind);
    }
  }

  /** `compare` lists a kind of change for a tool exactly when it happened. */
  lemma {:induction false} ListedIffHappened(baseline: seq<ToolContract>, current: seq<ToolContract>, name: string,
                                             kind: ChangeKind)
    ensures Lists(Compare(baseline, current), name, kind) <==> Happened(baseline, current, name, kind)
  {
    var x, y := BaselineChanges(baseline, current), AddedTools(baseline, current);
    forall c ensures c in Compare(baseline, current) <==> c in x + y {
      StableSort.SortMember(x + y, ChangeLe, c);
    }
    BaselineChangesMean(baseline, current, name, kind);
    AddedToolsMean(baseline, current, name, kind);
    assert Lists(Compare(baseline, current), name, kind) <==> Lists(x, name, kind) || Lists(y, name, kind);
  }

  // ------------------------------------------------- what a caller can rely on

  /** A tool call: its arguments, keyed as the contract keys parameters. */
  datatype Call<V> = Call(tool: string, arguments: map<string, V>)

  /** A call the contract accepts, whatever satisfying a constraint means. */
  ghost predicate Accepts<V>(tools: seq<ToolContract>, call: Call<V>, meets: (string, V) -> bool) {
    var found := Find(tools, call.tool);
    && found.Some?
    && found.value.required <= call.arguments.Keys
    && call.arguments.Keys <= found.value.parameters.Keys
    && forall p :: p in call.arguments ==> meets(found.value.parameters[p], call.arguments[p])
  }

  ghost predicate HasSeverity(changes: seq<Change>, severity: Severity) {
    exists c :: c in changes && SeverityOf(c.kind) == severity
  }

  /** `changes` lists exactly what happened between two catalogs. */
  ghost predicate Reports(changes: seq<Change>, baseline: seq<ToolContract>, current: seq<ToolContract>) {
    forall name, kind :: Lists(changes, name, kind) <==> Happened(baseline, current, name, kind)
  }

  lemma {:induction false} CompareReports(baseline: seq<ToolContract>, current: seq<ToolContract>)
    ensures Reports(Compare(baseline, current), baseline, current)
  {
    forall name, kind
      ensures Lists(Compare(baseline, current), name, kind) <==> Happened(baseline, current, name, kind)
    {
      ListedIffHappened(baseline, current, name, kind);
    }
  }

  lemma {:induction false} NotListed(changes: seq<Change>, baseline: seq<ToolContract>, current: seq<ToolContract>,
                  before: ToolContract, kind: ChangeKind)
    requires Reports(changes, baseline, current)
    requires before in baseline && !kind.ToolAdded?
    requires !HasSeverity(changes, SeverityOf(kind))
    ensures !ToolHappened(before, Find(current, before.name), kind)
  {
    assert !Lists(changes, before.name, kind);
    assert !Happened(baseline, current, before.name, kind);
  }

  /** No breaking change, tool by tool: what a caller of `before` keeps. */
  ghost predicate Keeps(before: ToolContract, after: ToolContract) {
    && after.required <= before.required
    && before.parameters.Keys <= after.parameters.Keys
    && (before.output.Some? ==> after.output.Some?)
    && (after.class_ == Writer ==> before.class_ == Writer)
    && (before.class_ == ReadOnly ==> after.class_ == ReadOnly)
  }

  ghost predicate KeepsAll(baseline: seq<ToolContract>, current: seq<ToolContract>) {
    forall before :: before in baseline ==>
      Find(current, before.name).Some? && Keeps(before, Find(current, before.name).value)
  }

  /** "Nothing breaking" is exactly: every tool is still there, asks for no new
      parameter, drops none, keeps an output schema it had, and is no more
      dangerous to call. */
  lemma {:induction false} NoBreakingMeans(baseline: seq<ToolContract>, current: seq<ToolContract>)
    ensures !HasSeverity(Compare(baseline, current), Breaking) <==> KeepsAll(baseline, current)
  {
    CompareReports(baseline, current);
    NothingBreaks(Compare(baseline, current), baseline, current);
  }

  lemma {:induction false} NothingBreaks(changes: seq<Change>, baseline: seq<ToolContract>, current: seq<ToolContract>)
    requires Reports(changes, baseline, current)
    ensures !HasSeverity(changes, Breaking) <==> KeepsAll(baseline, current)
  {
    if !HasSeverity(changes, Breaking) {
      forall before | before in baseline
        ensures Find(current, before.name).Some? && Keeps(before, Find(current, before.name).value)
      {
        NotBroken(changes, baseline, current, before);
      }
    }
    if HasSeverity(changes, Breaking) {
      var c :| c in changes && SeverityOf(c.kind) == Breaking;
      assert Lists(changes, c.tool, c.kind);
      assert Happened(baseline, current, c.tool, c.kind);
      var found := Find(current, c.tool);
      var before :| before in baseline && before.name == c.tool && ToolHappened(before, found, c.kind);
      BrokenNotKept(before, found, c.kind);
    }
  }

  lemma {:induction false} BrokenNotKept(before: ToolContract, found: Option<ToolContract>, kind: ChangeKind)
    requires SeverityOf(kind) == Breaking && ToolHappened(before, found, kind)
    ensures found.None? || !Keeps(before, found.value)
  {
    if kind.ParameterRequired? {
      HappenedAffects(before, found.value);
      var p :| p in NewlyRequired(before, found.value);
    } else if kind.ParameterRemoved? {
      HappenedAffects(before, found.value);
      var p :| p in Removed(before, found.value);
      assert p in before.parameters.Keys;
    }
  }

  lemma {:induction false} NotBroken(changes: seq<Change>, baseline: seq<ToolContract>, current: seq<ToolContract>,
                  before: ToolContract)
    requires Reports(changes, baseline, current)
    requires before in baseline && !HasSeverity(changes, Breaking)
    ensures Find(current, before.name).Some? && Keeps(before, Find(current, before.name).value)
  {
    NotListed(changes, baseline, current, before, ToolRemoved);
    var after := Find(current, before.name).value;
    NotListed(changes, baseline, current, before, ParameterRequired);
    NotListed(changes, baseline, current, before, ParameterRemoved);
    NotListed(changes, baseline, current, before, OutputSchemaRemoved);
    if SeverityOf(ClassChanged(before.class_, after.class_)) == Breaking {
      NotListed(changes, baseline, current, before, ClassChanged(before.class_, after.class_));
    }
    QuietKeeps(before, after);
  }

  lemma {:induction false} QuietKeeps(before: ToolContract, after: ToolContract)
    requires NewlyRequired(before, after) == {} && Removed(before, after) == {}
    requires before.output.Some? ==> after.output.Some?
    requires before.class_ != after.class_ ==> SeverityOf(ClassChanged(before.class_, after.class_)) != Breaking
    ensures Keeps(before, after)
  {
    assert forall p :: p in before.parameters.Keys ==> p !in Removed(before, after);
    assert forall p :: p in after.required ==> p !in NewlyRequired(before, after);
  }

  /** No catalog breaks itself. */
  lemma {:induction false} NothingBreaksItself(a: seq<ToolContract>)
    requires UniqueNames(a)
    ensures !HasSeverity(Compare(a, a), Breaking)
  {
    NoBreakingMeans(a, a);
    forall before | before in a ensures Find(a, before.name) == Some(before) {
      FindUnique(a, before);
    }
  }

  /** "Nothing breaking" composes over versions. */
  lemma {:induction false} NoBreakingComposes(a: seq<ToolContract>, b: seq<ToolContract>, c: seq<ToolContract>)
    requires !HasSeverity(Compare(a, b), Breaking) && !HasSeverity(Compare(b, c), Breaking)
    ensures !HasSeverity(Compare(a, c), Breaking)
  {
    NoBreakingMeans(a, b);
    NoBreakingMeans(b, c);
    NoBreakingMeans(a, c);
  }

  ghost predicate UniqueNames(tools: seq<ToolContract>) {
    forall i, j :: 0 <= i < j < |tools| ==> tools[i].name != tools[j].name
  }

  lemma {:induction false} FindUnique(tools: seq<ToolContract>, tool: ToolContract)
    requires UniqueNames(tools) && tool in tools
    ensures Find(tools, tool.name) == Some(tool)
  {
    var found := Find(tools, tool.name);
    var i :| 0 <= i < |tools| && tools[i] == found.value;
    var j :| 0 <= j < |tools| && tools[j] == tool;
  }

  /** With nothing breaking and nothing to review, every call that worked still
      works, whatever it means for a value to meet a constraint. */
  lemma {:induction false} OldCallsStillWork<V>(baseline: seq<ToolContract>, current: seq<ToolContract>, call: Call<V>,
                             meets: (string, V) -> bool)
    requires !HasSeverity(Compare(baseline, current), Breaking)
    requires !HasSeverity(Compare(baseline, current), Review)
    requires Accepts(baseline, call, meets)
    ensures Accepts(current, call, meets)
  {
    CompareReports(baseline, current);
    CallStillWorks(Compare(baseline, current), baseline, current, call, meets);
  }

  /** And every output a tool promised it still promises as it was. */
  lemma {:induction false} OutputsStillPromised(baseline: seq<ToolContract>, current: seq<ToolContract>,
                                                before: ToolContract)
    requires !HasSeverity(Compare(baseline, current), Breaking)
    requires !HasSeverity(Compare(baseline, current), Review)
    requires before in baseline && before.output.Some?
    ensures Find(current, before.name).Some? && Find(current, before.name).value.output == before.output
  {
    CompareReports(baseline, current);
    OutputKept(Compare(baseline, current), baseline, current, before);
  }

  lemma {:induction false} OutputKept(changes: seq<Change>, baseline: seq<ToolContract>, current: seq<ToolContract>,
                                      before: ToolContract)
    requires Reports(changes, baseline, current)
    requires !HasSeverity(changes, Breaking) && !HasSeverity(changes, Review)
    requires before in baseline && before.output.Some?
    ensures Find(current, before.name).Some? && Find(current, before.name).value.output == before.output
  {
    NotBroken(changes, baseline, current, before);
    NotListed(changes, baseline, current, before, OutputSchemaRemoved);
    NotListed(changes, baseline, current, before, OutputSchemaChanged);
  }

  /** What needs a look is a parameter or an output read differently; what breaks
      is what a caller had and has no more, or must do and need not before, or a
      tool no longer safe to call unattended. */
  lemma {:induction false} SeveritiesMean(kind: ChangeKind)
    ensures SeverityOf(kind) == Review <==> kind in {ParameterChanged, OutputSchemaChanged}
    ensures SeverityOf(kind) == Breaking <==>
      || kind in {ToolRemoved, ParameterRequired, ParameterRemoved, OutputSchemaRemoved}
      || (kind.ClassChanged? && (kind.after == Writer || (kind.before == ReadOnly && kind.after == Unannotated)))
  {
  }

  lemma {:induction false} CallStillWorks<V>(changes: seq<Change>, baseline: seq<ToolContract>,
                                             current: seq<ToolContract>,
                          call: Call<V>, meets: (string, V) -> bool)
    requires Reports(changes, baseline, current)
    requires !HasSeverity(changes, Breaking) && !HasSeverity(changes, Review)
    requires Accepts(baseline, call, meets)
    ensures Accepts(current, call, meets)
  {
    var before := Find(baseline, call.tool).value;
    NotBroken(changes, baseline, current, before);
    var after := Find(current, call.tool).value;
    NotListed(changes, baseline, current, before, ParameterChanged);
    forall p | p in call.arguments ensures meets(after.parameters[p], call.arguments[p]) {
      assert p !in Reconstrained(before, after);
      assert p in after.parameters.Keys && p in before.parameters.Keys;
    }
  }

  /** The four kinds of change a caller's arguments can run into. */
  predicate AffectsCalls(kind: ChangeKind) {
    kind.ToolRemoved? || kind.ParameterRequired? || kind.ParameterRemoved? || kind.ParameterChanged?
  }

  /** Constraints told apart by name alone: the strictest reading there is. */
  predicate Literally(constraint: string, value: string) { constraint == value }

  /** A call `before` accepts that the change of kind `kind` makes fail. */
  function Witness(before: ToolContract, kind: ChangeKind): Call<string> {
    Call(before.name,
         if kind.ParameterRequired?
         then map p | p in before.parameters && p in before.required :: before.parameters[p]
         else before.parameters)
  }

  /** And the classification cries wolf about none of them: each such change has
      a call that worked before and fails now. */
  lemma {:induction false} AffectedCallFails(baseline: seq<ToolContract>, current: seq<ToolContract>, name: string,
                                             kind: ChangeKind)
    requires UniqueNames(baseline) && AffectsCalls(kind)
    requires forall t :: t in baseline ==> t.required <= t.parameters.Keys
    requires Lists(Compare(baseline, current), name, kind)
    ensures exists call :: Accepts(baseline, call, Literally) && !Accepts(current, call, Literally)
  {
    ListedIffHappened(baseline, current, name, kind);
    var found := Find(current, name);
    var before :| before in baseline && before.name == name && ToolHappened(before, found, kind);
    FindUnique(baseline, before);
    var call := Witness(before, kind);
    assert before.required <= call.arguments.Keys <= before.parameters.Keys by {
      assert forall p :: p in before.required ==> p in before.parameters.Keys;
    }
    assert Accepts(baseline, call, Literally);
    if !kind.ToolRemoved? {
      WitnessFails(before, found.value, kind);
    }
    assert !Accepts(current, call, Literally);
  }

  lemma {:induction false} WitnessFails(before: ToolContract, after: ToolContract, kind: ChangeKind)
    requires AffectsCalls(kind) && !kind.ToolRemoved? && ToolHappened(before, Some(after), kind)
    ensures
      var call := Witness(before, kind);
      || !(after.required <= call.arguments.Keys <= after.parameters.Keys)
      || exists p :: p in call.arguments && !Literally(after.parameters[p], call.arguments[p])
  {
    var call := Witness(before, kind);
    HappenedAffects(before, after);
    if kind.ParameterRequired? {
      var p :| p in NewlyRequired(before, after);
      assert p !in call.arguments.Keys;
    } else if kind.ParameterRemoved? {
      var p :| p in Removed(before, after);
      assert p in call.arguments.Keys && p !in after.parameters.Keys;
    } else {
      var p :| p in Reconstrained(before, after);
      assert p in call.arguments && !Literally(after.parameters[p], call.arguments[p]);
    }
  }

  /** Exactness for callers: some working call can fail if and only if one of
      the four call-affecting changes is listed. */
  lemma {:induction false} CallsFailIffListed(baseline: seq<ToolContract>, current: seq<ToolContract>)
    requires UniqueNames(baseline)
    requires forall t :: t in baseline ==> t.required <= t.parameters.Keys
    ensures (exists call :: Accepts(baseline, call, Literally) && !Accepts(current, call, Literally))
       <==> (exists c :: c in Compare(baseline, current) && AffectsCalls(c.kind))
  {
    if c :| c in Compare(baseline, current) && AffectsCalls(c.kind) {
      assert Lists(Compare(baseline, current), c.tool, c.kind);
      AffectedCallFails(baseline, current, c.tool, c.kind);
    }
    if call :| Accepts(baseline, call, Literally) && !Accepts(current, call, Literally) {
      var kind := FailureKind(baseline, current, call);
      ListedIffHappened(baseline, current, call.tool, kind);
      var c :| c in Compare(baseline, current) && c.tool == call.tool && c.kind == kind;
      assert AffectsCalls(c.kind);
    }
  }

  lemma {:induction false} FailureKind(baseline: seq<ToolContract>, current: seq<ToolContract>, call: Call<string>)
    returns (kind: ChangeKind)
    requires Accepts(baseline, call, Literally) && !Accepts(current, call, Literally)
    ensures AffectsCalls(kind) && Happened(baseline, current, call.tool, kind)
  {
    var before := Find(baseline, call.tool).value;
    var found := Find(current, call.tool);
    if found.None? {
      kind := ToolRemoved;
    } else {
      var after := found.value;
      if !(after.required <= call.arguments.Keys) {
        kind := ParameterRequired;
        var p :| p in after.required && p !in call.arguments.Keys;
        assert p in NewlyRequired(before, after);
      } else if !(call.arguments.Keys <= after.parameters.Keys) {
        kind := ParameterRemoved;
        var p :| p in call.arguments.Keys && p !in after.parameters.Keys;
        assert p in Removed(before, after);
      } else {
        kind := ParameterChanged;
        var p :| p in call.arguments && !Literally(after.parameters[p], call.arguments[p]);
        assert p in Reconstrained(before, after);
      }
    }
    assert ToolHappened(before, found, kind);
  }

  // ------------------------------------------------------- when nothing changed

  ghost predicate SortedByName(tools: seq<ToolContract>) {
    forall i, j :: 0 <= i < j < |tools| ==> StringOrder.Le(tools[i].name, tools[j].name)
  }

  /** What `compare` can see of one tool: required names outside the declared
      parameters escape it on the way out. */
  ghost predicate LooksSame(before: ToolContract, after: ToolContract) {
    && before.name == after.name && before.class_ == after.class_ && before.output == after.output
    && before.parameters.Keys <= after.parameters.Keys
    && (forall p :: p in before.parameters ==> after.parameters[p] == before.parameters[p])
    && after.parameters.Keys <= before.parameters.Keys + after.required
    && after.required <= before.required
    && (before.required - after.required) !! after.parameters.Keys
  }

  lemma {:induction false} NothingHappenedMeans(before: ToolContract, after: ToolContract)
    requires before.name == after.name
    ensures (forall kind :: !ToolHappened(before, Some(after), kind)) <==> LooksSame(before, after)
  {
    if forall kind :: !ToolHappened(before, Some(after), kind) {
      NothingHappenedLooksSame(before, after);
    }
    if LooksSame(before, after) {
      forall kind ensures !ToolHappened(before, Some(after), kind) {
        assert NewlyRequired(before, after) == {} && NewlyOptional(before, after) == {};
        assert Removed(before, after) == {} && Added(before, after) == {};
      }
    }
  }

  lemma {:induction false} NothingHappenedLooksSame(before: ToolContract, after: ToolContract)
    requires before.name == after.name
    requires forall kind :: !ToolHappened(before, Some(after), kind)
    ensures LooksSame(before, after)
  {
    var x := Some(after);
    assert !ToolHappened(before, x, ParameterRequired);
    assert !ToolHappened(before, x, ParameterOptional);
    assert !ToolHappened(before, x, ParameterRemoved);
    assert !ToolHappened(before, x, ParameterAdded);
    assert !ToolHappened(before, x, ParameterChanged);
    assert !ToolHappened(before, x, ClassChanged(before.class_, after.class_));
    assert !ToolHappened(before, x, OutputSchemaRemoved);
    assert !ToolHappened(before, x, OutputSchemaAdded);
    assert !ToolHappened(before, x, OutputSchemaChanged);
    assert forall p :: p in before.parameters ==> p !in Removed(before, after);
    assert forall p :: p in before.parameters ==> p !in Reconstrained(before, after);
    assert forall p :: p in after.parameters ==> p !in Added(before, after);
    assert forall p :: p in before.required - after.required ==> p !in NewlyOptional(before, after);
    assert after.required <= before.required by {
      assert forall p :: p in after.required ==> p !in NewlyRequired(before, after);
    }
  }

  /** `compare` is silent exactly when the same tools are there and each looks
      the same. */
  lemma {:induction false} SilentIff(a: seq<ToolContract>, b: seq<ToolContract>)
    requires UniqueNames(a) && UniqueNames(b)
    ensures Compare(a, b) == [] <==>
      && (forall t :: t in b ==> Find(a, t.name).Some?)
      && (forall t :: t in a ==> Find(b, t.name).Some? && LooksSame(t, Find(b, t.name).value))
  {
    if Compare(a, b) == [] {
      forall name, kind ensures !Happened(a, b, name, kind) { ListedIffHappened(a, b, name, kind); }
      forall t | t in b ensures Find(a, t.name).Some? {
        assert !Happened(a, b, t.name, ToolAdded);
      }
      forall t | t in a ensures Find(b, t.name).Some? && LooksSame(t, Find(b, t.name).value) {
        assert !Happened(a, b, t.name, ToolRemoved);
        forall kind ensures !ToolHappened(t, Find(b, t.name), kind) {
          assert !Happened(a, b, t.name, kind);
        }
        NothingHappenedMeans(t, Find(b, t.name).value);
      }
    } else {
      var c := Compare(a, b)[0];
      assert Lists(Compare(a, b), c.tool, c.kind);
      ListedIffHappened(a, b, c.tool, c.kind);
      if c.kind.ToolAdded? {
        assert Find(b, c.tool).value in b;
      } else {
        var t :| t in a && t.name == c.tool && ToolHappened(t, Find(b, c.tool), c.kind);
        if Find(b, c.tool).Some? {
          NothingHappenedMeans(t, Find(b, c.tool).value);
        }
      }
    }
  }

  /** When every required name is a declared parameter, looking the same is
      being the same. */
  lemma {:induction false} LooksSameIsSame(before: ToolContract, after: ToolContract)
    requires before.required <= before.parameters.Keys && after.required <= after.parameters.Keys
    ensures LooksSame(before, after) <==> before == after
  {
    if LooksSame(before, after) {
      assert after.parameters.Keys == before.parameters.Keys;
      assert after.parameters == before.parameters;
      assert before.required == after.required by {
        assert forall p :: p in before.required ==> p in after.parameters.Keys;
      }
    }
  }

  /** `compare` is exact: silence means equality. */
  lemma {:induction false} SilentMeansEqual(a: seq<ToolContract>, b: seq<ToolContract>)
    requires UniqueNames(a) && UniqueNames(b) && SortedByName(a) && SortedByName(b)
    requires forall t :: t in a || t in b ==> t.required <= t.parameters.Keys
    ensures Compare(a, b) == [] <==> a == b
  {
    SilentIff(a, b);
    if Compare(a, b) == [] {
      forall t ensures t in a <==> t in b {
        if t in a {
          LooksSameIsSame(t, Find(b, t.name).value);
        }
        if t in b {
          var u := Find(a, t.name).value;
          LooksSameIsSame(u, Find(b, u.name).value);
          FindUnique(b, t);
        }
      }
      SortedSame(a, b);
    }
    if a == b {
      forall t | t in a ensures Find(b, t.name) == Some(t) && LooksSame(t, t) {
        FindUnique(b, t);
        LooksSameIsSame(t, t);
      }
    }
  }

  lemma {:induction false} SortedSame(a: seq<ToolContract>, b: seq<ToolContract>)
    requires UniqueNames(a) && UniqueNames(b) && SortedByName(a) && SortedByName(b)
    requires forall t :: t in a <==> t in b
    ensures a == b
  {
    var le := (x: ToolContract, y: ToolContract) => StringOrder.Le(x.name, y.name);
    forall x, y | x in a && y in a && le(x, y) && le(y, x) ensures x == y {
      StringOrder.Antisymmetric(x.name, y.name);
      FindUnique(a, x);
      FindUnique(a, y);
    }
    StableSort.SortedDetermined(a, b, le);
  }

  /** Why required names must be declared: dropping a stray one is not listed,
      for any tool and any stray name. */
  lemma {:induction false} StrayRequirementIsUnseen(tool: ToolContract, stray: string)
    requires stray !in tool.parameters && stray !in tool.required
    ensures
      var before := [tool.(required := tool.required + {stray})];
      before != [tool] && Compare(before, [tool]) == []
  {
    var loose := tool.(required := tool.required + {stray});
    assert stray in loose.required && loose != tool;
    assert [loose][0] != [tool][0];
    assert loose.required - tool.required == {stray};
    assert LooksSame(loose, tool);
    assert Find([tool], loose.name) == Some(tool) && Find([loose], tool.name) == Some(loose);
    SilentIff([loose], [tool]);
  }
}
