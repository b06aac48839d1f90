/** What a tool contract tells apart: over a digest without collisions, exactly
    the definitions whose parameters, requirements, class or output differ in
    more than prose. */
module ContractExact {
  import opened Common
  import opened Json
  import opened Contract
  import opened Canonical
  import opened ConstraintsExact

  ghost predicate Injective(digest: string -> string) { forall s, t :: digest(s) == digest(t) ==> s == t }

  function Properties(schema: Value): seq<Field> {
    match Get(schema, "properties")
    case Some(Obj(fields)) => fields
    case _ => []
  }

  /** Under every name both schemas declare what reads alike. */
  predicate ParametersAlike(a: seq<Field>, ra: Value, b: seq<Field>, rb: Value) {
    && Keys(a) == Keys(b)
    && forall i, j :: 0 <= i < |a| && 0 <= j < |b| && a[i].key == b[j].key ==>
         ReadAlike(a[i].value, ra, 0, b[j].value, rb, 0, false)
  }

  lemma {:induction false} ParsedProperties(schema: Value)
    requires Parsed(schema)
    ensures Parsed(Obj(Properties(schema)))
  {
    if schema.Obj? && Lookup(schema.fields, "properties").Some? {
      LookupFound(schema.fields, "properties");
    }
  }

  ghost predicate Names(fields: seq<Field>, texts: map<string, string>, digest: string -> string) {
    && (forall i :: 0 <= i < |fields| ==> digest(fields[i].key) in texts)
    && (forall k :: k in texts ==> exists i :: 0 <= i < |fields| && k == digest(fields[i].key))
  }

  lemma {:induction false} ParameterNames(fields: seq<Field>, root: Value, digest: string -> string)
    ensures Names(fields, ParameterTexts(fields, root, digest), digest)
  {
    if fields != [] {
      var n := |fields| - 1;
      ParameterNames(fields[..n], root, digest);
      LastText(fields, root, digest, ConstraintText(fields[n].value, root));
      assert fields[n].key == fields[n].key && forall i :: 0 <= i < n ==> fields[..n][i] == fields[i];
    }
  }

  lemma {:induction false} LastText(fields: seq<Field>, root: Value, digest: string -> string, text: string)
    requires fields != [] && text == ConstraintText(fields[|fields| - 1].value, root)
    ensures ParameterTexts(fields, root, digest)
         == ParameterTexts(fields[..|fields| - 1], root, digest)[digest(fields[|fields| - 1].key) := digest(text)]
  {
  }

  /** Each name has the text of its own schema. */
  lemma {:induction false} TextAt(fields: seq<Field>, root: Value, digest: string -> string, i: nat, text: string)
    requires Injective(digest) && FieldsInOrder(fields) && i < |fields|
    requires text == ConstraintText(fields[i].value, root)
    ensures
      var texts := ParameterTexts(fields, root, digest);
      digest(fields[i].key) in texts && texts[digest(fields[i].key)] == digest(text)
    decreases |fields|
  {
    var n := |fields| - 1;
    LastText(fields, root, digest, ConstraintText(fields[n].value, root));
    if i < n {
      TextAt(fields[..n], root, digest, i, text);
      assert KeyBefore(fields[i].key, fields[n].key);
    }
  }

  /** Under one name, the same text is the same meaning. */
  lemma {:induction false} OneParameter(a: seq<Field>, ra: Value, i: nat, b: seq<Field>, rb: Value, j: nat,
                                        digest: string -> string)
    requires Injective(digest) && i < |a| && j < |b| && a[i].key == b[j].key
    requires Parsed(Obj(a)) && Parsed(ra) && Parsed(Obj(b)) && Parsed(rb)
    ensures
      var x, y, k := ParameterTexts(a, ra, digest), ParameterTexts(b, rb, digest), digest(a[i].key);
      k in x && k in y && (x[k] == y[k] <==> ReadAlike(a[i].value, ra, 0, b[j].value, rb, 0, false))
  {
    TextAt(a, ra, digest, i, ConstraintText(a[i].value, ra));
    TextAt(b, rb, digest, j, ConstraintText(b[j].value, rb));
    TextsAreExact(a[i].value, ra, b[j].value, rb, 0);
  }

  /** Under every common name, the texts are one exactly when the schemas read
      alike. */
  ghost predicate Paired(a: seq<Field>, ra: Value, b: seq<Field>, rb: Value, digest: string -> string,
                         x: map<string, string>, y: map<string, string>)
  {
    forall i, j :: 0 <= i < |a| && 0 <= j < |b| && a[i].key == b[j].key ==>
      && digest(a[i].key) in x && digest(a[i].key) in y
      && (x[digest(a[i].key)] == y[digest(a[i].key)] <==> ReadAlike(a[i].value, ra, 0, b[j].value, rb, 0, false))
  }

  lemma {:induction false} AllPaired(a: seq<Field>, ra: Value, b: seq<Field>, rb: Value, digest: string -> string)
    requires Injective(digest)
    requires Parsed(Obj(a)) && Parsed(ra) && Parsed(Obj(b)) && Parsed(rb)
    ensures Paired(a, ra, b, rb, digest, ParameterTexts(a, ra, digest), ParameterTexts(b, rb, digest))
  {
    forall i, j | 0 <= i < |a| && 0 <= j < |b| && a[i].key == b[j].key
      ensures
        var x, y, k := ParameterTexts(a, ra, digest), ParameterTexts(b, rb, digest), digest(a[i].key);
        k in x && k in y && (x[k] == y[k] <==> ReadAlike(a[i].value, ra, 0, b[j].value, rb, 0, false))
    {
      OneParameter(a, ra, i, b, rb, j, digest);
    }
  }

  lemma {:induction false} PairedIsExact(a: seq<Field>, ra: Value, b: seq<Field>, rb: Value, digest: string -> string,
                                         x: map<string, string>, y: map<string, string>)
    requires Injective(digest) && Names(a, x, digest) && Names(b, y, digest)
    requires Paired(a, ra, b, rb, digest, x, y)
    ensures x == y <==> ParametersAlike(a, ra, b, rb)
  {
    if x == y {
      SameNames(a, x, b, y, digest);
    }
    if ParametersAlike(a, ra, b, rb) {
      TextsCover(a, b, digest, x, y);
    }
  }

  lemma {:induction false} ParametersAreExact(a: seq<Field>, ra: Value, b: seq<Field>, rb: Value,
                                              digest: string -> string)
    requires Injective(digest)
    requires Parsed(Obj(a)) && Parsed(ra) && Parsed(Obj(b)) && Parsed(rb)
    ensures ParameterTexts(a, ra, digest) == ParameterTexts(b, rb, digest) <==> ParametersAlike(a, ra, b, rb)
  {
    ParameterNames(a, ra, digest);
    ParameterNames(b, rb, digest);
    AllPaired(a, ra, b, rb, digest);
    PairedIsExact(a, ra, b, rb, digest, ParameterTexts(a, ra, digest), ParameterTexts(b, rb, digest));
  }

  /** Two tables with the same names that agree name by name are one table. */
  lemma {:induction false} TextsCover(a: seq<Field>, b: seq<Field>, digest: string -> string, x: map<string, string>,
                                      y: map<string, string>)
    requires Names(a, x, digest) && Names(b, y, digest) && Keys(a) == Keys(b)
    requires forall i, j :: 0 <= i < |a| && 0 <= j < |b| && a[i].key == b[j].key ==>
      x[digest(a[i].key)] == y[digest(a[i].key)]
    ensures x == y
  {
    forall k | k in x ensures k in y && x[k] == y[k] {
      var i :| 0 <= i < |a| && k == digest(a[i].key);
      assert a[i].key in Keys(b);
      var j :| 0 <= j < |b| && b[j].key == a[i].key;
    }
    forall k | k in y ensures k in x {
      var j :| 0 <= j < |b| && k == digest(b[j].key);
      assert b[j].key in Keys(a);
    }
  }

  lemma {:induction false} SameNames(a: seq<Field>, x: map<string, string>, b: seq<Field>, y: map<string, string>,
                                     digest: string -> string)
    requires Injective(digest) && Names(a, x, digest) && Names(b, y, digest) && x == y
    ensures Keys(a) == Keys(b)
  {
    forall key | key in Keys(a) ensures key in Keys(b) {
      var j :| 0 <= j < |b| && digest(key) == digest(b[j].key);
    }
    forall key | key in Keys(b) ensures key in Keys(a) {
      var i :| 0 <= i < |a| && digest(key) == digest(a[i].key);
    }
  }

  ghost predicate ParsedTool(t: ToolDefinition) {
    Parsed(t.inputSchema) && (t.outputSchema.Some? ==> Parsed(t.outputSchema.value))
  }

  predicate OutputsAlike(a: Option<Value>, b: Option<Value>) {
    if a.Some? && b.Some? then ReadAlike(a.value, a.value, 0, b.value, b.value, 0, false) else a.None? && b.None?
  }

  lemma {:induction false} DigestsTellSets(a: set<string>, b: set<string>, digest: string -> string)
    requires Injective(digest)
    ensures (set x | x in a :: digest(x)) == (set x | x in b :: digest(x)) <==> a == b
  {
    var da, db := set x | x in a :: digest(x), set x | x in b :: digest(x);
    if da == db {
      forall x | x in a ensures x in b {
        assert digest(x) in db;
      }
      forall x | x in b ensures x in a {
        assert digest(x) in da;
      }
    }
  }

  /** Two definitions have one contract exactly when they agree on the name, the
      class, what is required, and, up to prose, on what every parameter and the
      output may be. */
  lemma {:induction false} ContractsAreExact(before: ToolDefinition, after: ToolDefinition, digest: string -> string)
    requires Injective(digest) && ParsedTool(before) && ParsedTool(after)
    ensures
      var a, b := before.inputSchema, after.inputSchema;
      Of(before, digest) == Of(after, digest) <==>
        && before.name == after.name && ClassOf(before) == ClassOf(after)
        && RequiredNames(a) == RequiredNames(b)
        && ParametersAlike(Properties(a), a, Properties(b), b)
        && OutputsAlike(before.outputSchema, after.outputSchema)
  {
    var a, b := before.inputSchema, after.inputSchema;
    DigestsTellSets(RequiredNames(a), RequiredNames(b), digest);
    ParsedProperties(a);
    ParsedProperties(b);
    ParametersAreExact(Properties(a), a, Properties(b), b, digest);
    if before.outputSchema.Some? && after.outputSchema.Some? {
      var x, y := before.outputSchema.value, after.outputSchema.value;
      TextsAreExact(x, x, y, y, 0);
    }
  }

  /** A writer says it is not read-only or says it destroys; a reader says it is
      read-only and nothing else. */
  lemma {:induction false} ClassMeans(t: ToolDefinition)
    ensures ClassOf(t) == Writer <==> t.readOnlyHint == Some(false) || t.destructiveHint == Some(true)
    ensures ClassOf(t) == ReadOnly <==> t.readOnlyHint == Some(true) && t.destructiveHint != Some(true)
    ensures ClassOf(t) == Unannotated <==> t.readOnlyHint.None? && t.destructiveHint != Some(true)
  {
    match t.readOnlyHint
    case Some(b) => assert b || !b;
    case None =>
  }
}
