/** What a constraint shows: exactly the schema with its references followed and
    its prose left out. Objects are taken in key order, as documents are parsed. */
module ConstraintsExact {
  import opened Common
  import opened Json
  import opened Constraints
  import opened Canonical

  // ------------------------------------------------------------------ key order

  lemma {:induction false} KeptKeys(fields: seq<Field>, root: Value, depth: nat, names: bool, key: string)
    requires forall i :: 0 <= i < |fields| ==> KeyBefore(key, fields[i].key)
    ensures
      var kept := ConstraintFields(fields, root, depth, names);
      forall i :: 0 <= i < |kept| ==> KeyBefore(key, kept[i].key)
  {
    if fields != [] {
      var rest := fields[1..];
      assert forall i :: 0 <= i < |rest| ==> rest[i] == fields[i + 1];
      KeptKeys(rest, root, depth, names, key);
      KeptFirst(fields, root, depth, names);
    }
  }

  /** The first field, when it is kept, before what is kept of the others. */
  lemma {:induction false} KeptFirst(fields: seq<Field>, root: Value, depth: nat, names: bool)
    requires fields != []
    ensures
      var kept, rest := ConstraintFields(fields, root, depth, names), ConstraintFields(fields[1..], root, depth, names);
      if Kept(fields[0].key, names) then
        && |kept| == |rest| + 1 && kept[0].key == fields[0].key
        && (forall i :: 0 < i < |kept| ==> kept[i] == rest[i - 1])
      else kept == rest
  {
  }

  lemma {:induction false} KeptInOrder(fields: seq<Field>, root: Value, depth: nat, names: bool)
    requires FieldsInOrder(fields)
    ensures FieldsInOrder(ConstraintFields(fields, root, depth, names))
  {
    if fields != [] {
      var rest := fields[1..];
      assert forall i :: 0 <= i < |rest| ==> rest[i] == fields[i + 1];
      KeptInOrder(rest, root, depth, names);
      KeptKeys(rest, root, depth, names, fields[0].key);
      KeptFirst(fields, root, depth, names);
    }
  }

  /** Sorting is nothing to a document in key order. */
  lemma {:induction false} SortKeeps(fields: seq<Field>, root: Value, depth: nat, names: bool)
    requires FieldsInOrder(fields)
    ensures SortFields(ConstraintFields(fields, root, depth, names))
         == ConstraintFields(fields, root, depth, names)
  {
    KeptInOrder(fields, root, depth, names);
    SortedIsKept(ConstraintFields(fields, root, depth, names), KeyLe);
  }

  lemma {:induction false} LookupInOrder(fields: seq<Field>, key: string)
    requires InKeyOrder(Obj(fields)) && Lookup(fields, key).Some?
    ensures InKeyOrder(Lookup(fields, key).value)
  {
    LookupFound(fields, key);
  }

  lemma {:induction false} ResolveInOrder(v: Value, tokens: seq<string>)
    requires InKeyOrder(v) && Resolve(v, tokens).Some?
    ensures InKeyOrder(Resolve(v, tokens).value)
    decreases tokens
  {
    if tokens != [] {
      match v
      case Obj(fields) =>
        LookupInOrder(fields, tokens[0]);
        ResolveInOrder(Lookup(fields, tokens[0]).value, tokens[1..]);
      case Arr(items) => ResolveInOrder(items[Index(tokens[0]).value], tokens[1..]);
    }
  }

  lemma {:induction false} TargetInOrder(fields: seq<Field>, root: Value, depth: nat, names: bool)
    requires InKeyOrder(root) && Target(fields, root, depth, names).Some?
    ensures InKeyOrder(Target(fields, root, depth, names).value) && depth < MAX_REF_DEPTH && !names
  {
    var reference := AsStr(Lookup(fields, "$ref")).value;
    ResolveInOrder(root, Tokens(reference[1..]).value);
  }

  // ------------------------------------------------------ what shows, exactly

  /** Two schemas, each in its document and so many references deep, read alike:
      references are replaced by their targets on either side, and what is left
      differs only in prose. */
  predicate ReadAlike(a: Value, ra: Value, i: nat, b: Value, rb: Value, j: nat, names: bool)
    decreases Fuel(i) + Fuel(j), a, 1, 0
  {
    if a.Obj? && Target(a.fields, ra, i, names).Some? then
      ReadAlike(Target(a.fields, ra, i, names).value, ra, i + 1, b, rb, j, false)
    else if b.Obj? && Target(b.fields, rb, j, names).Some? then
      ReadAlike(a, ra, i, Target(b.fields, rb, j, names).value, rb, j + 1, false)
    else match a
      case Obj(fields) => b.Obj? && FieldsReadAlike(fields, ra, i, b.fields, rb, j, names)
      case Arr(items) => b.Arr? && ItemsReadAlike(items, ra, i, b.items, rb, j)
      case _ => a == b
  }

  predicate FieldsReadAlike(a: seq<Field>, ra: Value, i: nat, b: seq<Field>, rb: Value, j: nat, names: bool)
    decreases Fuel(i) + Fuel(j), a, 0, |b|
  {
    if a != [] && !Kept(a[0].key, names) then FieldsReadAlike(a[1..], ra, i, b, rb, j, names)
    else if b != [] && !Kept(b[0].key, names) then FieldsReadAlike(a, ra, i, b[1..], rb, j, names)
    else if a == [] || b == [] then a == b
    else
      && a[0].key == b[0].key
      && ReadAlike(a[0].value, ra, i, b[0].value, rb, j, ChildNames(a[0].key, names))
      && FieldsReadAlike(a[1..], ra, i, b[1..], rb, j, names)
  }

  predicate ItemsReadAlike(a: seq<Value>, ra: Value, i: nat, b: seq<Value>, rb: Value, j: nat)
    decreases Fuel(i) + Fuel(j), a, 0, |b|
  {
    if a == [] || b == [] then a == b
    else ReadAlike(a[0], ra, i, b[0], rb, j, false) && ItemsReadAlike(a[1..], ra, i, b[1..], rb, j)
  }

  lemma {:induction false} HopConstraint(fields: seq<Field>, root: Value, depth: nat, names: bool)
    requires Target(fields, root, depth, names).Some?
    ensures Constraints.Constraints(Obj(fields), root, depth, names)
         == Constraints.Constraints(Target(fields, root, depth, names).value, root, depth + 1, false)
  {
  }

  lemma {:induction false} ObjectConstraint(fields: seq<Field>, root: Value, depth: nat, names: bool)
    requires FieldsInOrder(fields) && Target(fields, root, depth, names).None?
    ensures Constraints.Constraints(Obj(fields), root, depth, names)
         == Obj(ConstraintFields(fields, root, depth, names))
  {
    SortKeeps(fields, root, depth, names);
  }

  /** A reference reads as its target does, on the first side first. */
  lemma {:induction false} ReadHops(a: Value, ra: Value, i: nat, b: Value, rb: Value, j: nat, names: bool)
    ensures a.Obj? && Target(a.fields, ra, i, names).Some? ==>
      (ReadAlike(a, ra, i, b, rb, j, names)
       <==> ReadAlike(Target(a.fields, ra, i, names).value, ra, i + 1, b, rb, j, false))
    ensures IsHere(a, ra, i, names) && b.Obj? && Target(b.fields, rb, j, names).Some? ==>
      (ReadAlike(a, ra, i, b, rb, j, names)
       <==> ReadAlike(a, ra, i, Target(b.fields, rb, j, names).value, rb, j + 1, false))
  {
  }

  /** Constraints agree exactly when the schemas read alike: nothing but prose is
      lost, on whatever side of whatever reference. */
  lemma {:induction false} ConstraintsAreExact(a: Value, ra: Value, i: nat, b: Value, rb: Value, j: nat, names: bool)
    requires InKeyOrder(a) && InKeyOrder(ra) && InKeyOrder(b) && InKeyOrder(rb)
    ensures Constraints.Constraints(a, ra, i, names) == Constraints.Constraints(b, rb, j, names)
       <==> ReadAlike(a, ra, i, b, rb, j, names)
    decreases Fuel(i) + Fuel(j), a, 2, 0
  {
    if a.Obj? && Target(a.fields, ra, i, names).Some? {
      TargetInOrder(a.fields, ra, i, names);
      HopConstraint(a.fields, ra, i, names);
      ReadHops(a, ra, i, b, rb, j, names);
      ConstraintsAreExact(Target(a.fields, ra, i, names).value, ra, i + 1, b, rb, j, false);
    } else if b.Obj? && Target(b.fields, rb, j, names).Some? {
      TargetInOrder(b.fields, rb, j, names);
      HopConstraint(b.fields, rb, j, names);
      ReadHops(a, ra, i, b, rb, j, names);
      ConstraintsAreExact(a, ra, i, Target(b.fields, rb, j, names).value, rb, j + 1, false);
    } else {
      HereIsExact(a, ra, i, b, rb, j, names);
    }
  }

  predicate IsHere(v: Value, root: Value, depth: nat, names: bool) {
    v.Obj? ==> Target(v.fields, root, depth, names).None?
  }

  lemma {:induction false} ReadHere(a: Value, ra: Value, i: nat, b: Value, rb: Value, j: nat, names: bool)
    requires IsHere(a, ra, i, names) && IsHere(b, rb, j, names)
    ensures ReadAlike(a, ra, i, b, rb, j, names) <==>
      match a
      case Obj(fields) => b.Obj? && FieldsReadAlike(fields, ra, i, b.fields, rb, j, names)
      case Arr(items) => b.Arr? && ItemsReadAlike(items, ra, i, b.items, rb, j)
      case _ => a == b
  {
  }

  lemma {:induction false} ConstraintHere(v: Value, root: Value, depth: nat, names: bool)
    requires InKeyOrder(v) && IsHere(v, root, depth, names)
    ensures Constraints.Constraints(v, root, depth, names) ==
      match v
      case Obj(fields) => Obj(ConstraintFields(fields, root, depth, names))
      case Arr(items) => Arr(ConstraintItems(items, root, depth))
      case _ => v
  {
    if v.Obj? {
      ObjectConstraint(v.fields, root, depth, names);
    }
  }

  lemma {:induction false} HereIsExact(a: Value, ra: Value, i: nat, b: Value, rb: Value, j: nat, names: bool)
    requires InKeyOrder(a) && InKeyOrder(ra) && InKeyOrder(b) && InKeyOrder(rb)
    requires IsHere(a, ra, i, names) && IsHere(b, rb, j, names)
    ensures Constraints.Constraints(a, ra, i, names) == Constraints.Constraints(b, rb, j, names)
       <==> ReadAlike(a, ra, i, b, rb, j, names)
    decreases Fuel(i) + Fuel(j), a, 1, 0
  {
    ReadHere(a, ra, i, b, rb, j, names);
    ConstraintHere(a, ra, i, names);
    ConstraintHere(b, rb, j, names);
    if a.Obj? && b.Obj? {
      FieldsAreExact(a.fields, ra, i, b.fields, rb, j, names);
    } else if a.Arr? && b.Arr? {
      ItemsAreExact(a.items, ra, i, b.items, rb, j);
    }
  }

  lemma {:induction false} RestInOrder(fields: seq<Field>)
    requires fields != [] && InKeyOrder(Obj(fields))
    ensures InKeyOrder(Obj(fields[1..])) && InKeyOrder(fields[0].value)
  {
    var rest := fields[1..];
    assert forall i :: 0 <= i < |rest| ==> rest[i] == fields[i + 1];
  }

  function FirstKept(fields: seq<Field>, root: Value, depth: nat, names: bool): Field
    requires fields != []
  {
    Field(fields[0].key,
          Constraints.Constraints(fields[0].value, root, depth, ChildNames(fields[0].key, names)))
  }

  /** Fields that are not kept are dropped on either side. */
  lemma {:induction false} DropsProse(fields: seq<Field>, root: Value, depth: nat, names: bool)
    requires fields != []
    ensures ConstraintFields(fields, root, depth, names) ==
      (if Kept(fields[0].key, names) then [FirstKept(fields, root, depth, names)] else [])
      + ConstraintFields(fields[1..], root, depth, names)
  {
  }

  lemma {:induction false} FieldsAreExact(a: seq<Field>, ra: Value, i: nat, b: seq<Field>, rb: Value, j: nat,
                                          names: bool)
    requires InKeyOrder(Obj(a)) && InKeyOrder(ra) && InKeyOrder(Obj(b)) && InKeyOrder(rb)
    ensures ConstraintFields(a, ra, i, names) == ConstraintFields(b, rb, j, names)
       <==> FieldsReadAlike(a, ra, i, b, rb, j, names)
    decreases Fuel(i) + Fuel(j), a, 0, |b|
  {
    if a != [] && !Kept(a[0].key, names) {
      RestInOrder(a);
      DropsProse(a, ra, i, names);
      FieldsAreExact(a[1..], ra, i, b, rb, j, names);
    } else if b != [] && !Kept(b[0].key, names) {
      RestInOrder(b);
      DropsProse(b, rb, j, names);
      FieldsAreExact(a, ra, i, b[1..], rb, j, names);
    } else if a != [] && b != [] {
      KeptIsExact(a, ra, i, b, rb, j, names);
    }
  }

  lemma {:induction false} KeptAlike(a: seq<Field>, ra: Value, i: nat, b: seq<Field>, rb: Value, j: nat, names: bool)
    requires a != [] && b != [] && Kept(a[0].key, names) && Kept(b[0].key, names)
    ensures FieldsReadAlike(a, ra, i, b, rb, j, names) <==>
      && a[0].key == b[0].key
      && ReadAlike(a[0].value, ra, i, b[0].value, rb, j, ChildNames(a[0].key, names))
      && FieldsReadAlike(a[1..], ra, i, b[1..], rb, j, names)
  {
  }

  lemma {:induction false} KeptIsExact(a: seq<Field>, ra: Value, i: nat, b: seq<Field>, rb: Value, j: nat, names: bool)
    requires InKeyOrder(Obj(a)) && InKeyOrder(ra) && InKeyOrder(Obj(b)) && InKeyOrder(rb)
    requires a != [] && b != [] && Kept(a[0].key, names) && Kept(b[0].key, names)
    ensures ConstraintFields(a, ra, i, names) == ConstraintFields(b, rb, j, names)
       <==> FieldsReadAlike(a, ra, i, b, rb, j, names)
    decreases Fuel(i) + Fuel(j), a, 0, |b|, 0
  {
    RestInOrder(a);
    RestInOrder(b);
    KeptAlike(a, ra, i, b, rb, j, names);
    DropsProse(a, ra, i, names);
    DropsProse(b, rb, j, names);
    ConsEqual(FirstKept(a, ra, i, names), ConstraintFields(a[1..], ra, i, names),
              FirstKept(b, rb, j, names), ConstraintFields(b[1..], rb, j, names));
    FieldsAreExact(a[1..], ra, i, b[1..], rb, j, names);
    if a[0].key == b[0].key {
      ConstraintsAreExact(a[0].value, ra, i, b[0].value, rb, j, ChildNames(a[0].key, names));
    }
  }

  lemma {:induction false} ConsEqual<T>(x: T, xs: seq<T>, y: T, ys: seq<T>)
    ensures [x] + xs == [y] + ys <==> x == y && xs == ys
  {
    var a, b := [x] + xs, [y] + ys;
    assert a[0] == x && b[0] == y && a[1..] == xs && b[1..] == ys;
  }

  lemma {:induction false} ItemsAreExact(a: seq<Value>, ra: Value, i: nat, b: seq<Value>, rb: Value, j: nat)
    requires InKeyOrder(Arr(a)) && InKeyOrder(ra) && InKeyOrder(Arr(b)) && InKeyOrder(rb)
    ensures ConstraintItems(a, ra, i) == ConstraintItems(b, rb, j) <==> ItemsReadAlike(a, ra, i, b, rb, j)
    decreases Fuel(i) + Fuel(j), a, 0, |b|
  {
    if a != [] && b != [] {
      assert forall k :: 0 <= k < |a| - 1 ==> a[1..][k] == a[k + 1];
      assert forall k :: 0 <= k < |b| - 1 ==> b[1..][k] == b[k + 1];
      ConsEqual(Constraints.Constraints(a[0], ra, i, false), ConstraintItems(a[1..], ra, i),
                Constraints.Constraints(b[0], rb, j, false), ConstraintItems(b[1..], rb, j));
      ConstraintsAreExact(a[0], ra, i, b[0], rb, j, false);
      ItemsAreExact(a[1..], ra, i, b[1..], rb, j);
    }
  }

  // ------------------------------------------------------- without references

  lemma {:induction false} OwnReference(fields: seq<Field>, names: bool)
    ensures
      var own := AsStr(Lookup(fields, "$ref"));
      own.Some? ==> own.value in VisitedRefs(Obj(fields), names)
  {
  }

  lemma {:induction false} NoTarget(v: Value, root: Value, depth: nat, names: bool)
    requires v.Obj? && VisitedRefs(v, names) == {}
    ensures Target(v.fields, root, depth, names).None? && FieldRefs(v.fields, names) == {}
  {
    OwnReference(v.fields, names);
  }

  /** With no reference to follow, reading alike is differing only in prose. */
  lemma {:induction false} AlikeButProse(a: Value, ra: Value, i: nat, b: Value, rb: Value, j: nat, names: bool)
    requires VisitedRefs(a, names) == {} && VisitedRefs(b, names) == {}
    ensures ReadAlike(a, ra, i, b, rb, j, names) <==> SameButProse(a, b, names)
    decreases Fuel(i) + Fuel(j), a, 1, 0
  {
    if a.Obj? {
      NoTarget(a, ra, i, names);
    }
    if b.Obj? {
      NoTarget(b, rb, j, names);
    }
    if a.Obj? && b.Obj? {
      FieldsAlikeButProse(a.fields, ra, i, b.fields, rb, j, names);
    } else if a.Arr? && b.Arr? {
      ItemsAlikeButProse(a.items, ra, i, b.items, rb, j);
    }
  }

  lemma {:induction false} FieldsAlikeButProse(a: seq<Field>, ra: Value, i: nat, b: seq<Field>, rb: Value, j: nat,
                                               names: bool)
    requires FieldRefs(a, names) == {} && FieldRefs(b, names) == {}
    ensures FieldsReadAlike(a, ra, i, b, rb, j, names) <==> SameKept(a, b, names)
    decreases Fuel(i) + Fuel(j), a, 0, |b|
  {
    if a != [] && !Kept(a[0].key, names) {
      FieldsAlikeButProse(a[1..], ra, i, b, rb, j, names);
    } else if b != [] && !Kept(b[0].key, names) {
      FieldsAlikeButProse(a, ra, i, b[1..], rb, j, names);
    } else if a != [] && b != [] && a[0].key == b[0].key {
      AlikeButProse(a[0].value, ra, i, b[0].value, rb, j, ChildNames(a[0].key, names));
      FieldsAlikeButProse(a[1..], ra, i, b[1..], rb, j, names);
    }
  }

  lemma {:induction false} ItemsAlikeButProse(a: seq<Value>, ra: Value, i: nat, b: seq<Value>, rb: Value, j: nat)
    requires ItemRefs(a) == {} && ItemRefs(b) == {}
    ensures ItemsReadAlike(a, ra, i, b, rb, j) <==> SameItems(a, b)
    decreases Fuel(i) + Fuel(j), a, 0, |b|
  {
    if a != [] && b != [] {
      AlikeButProse(a[0], ra, i, b[0], rb, j, false);
      ItemsAlikeButProse(a[1..], ra, i, b[1..], rb, j);
    }
  }

  /** Without references, exactly rewording prose leaves the constraint as it is:
      whatever else is edited shows. */
  lemma {:induction false} OnlyProseIsInvisible(a: Value, ra: Value, b: Value, rb: Value)
    requires InKeyOrder(a) && InKeyOrder(ra) && InKeyOrder(b) && InKeyOrder(rb)
    requires VisitedRefs(a, false) == {} && VisitedRefs(b, false) == {}
    ensures Constraints.Constraints(a, ra, 0, false) == Constraints.Constraints(b, rb, 0, false)
       <==> SameButProse(a, b, false)
  {
    ConstraintsAreExact(a, ra, 0, b, rb, 0, false);
    AlikeButProse(a, ra, 0, b, rb, 0, false);
  }

  /** And so it is where two references end. */
  lemma {:induction false} OnlyProseOfTargetsIsInvisible(ra: Value, ref: string, rb: Value, ref': string, depth: nat)
    requires InKeyOrder(ra) && InKeyOrder(rb) && depth < MAX_REF_DEPTH
    requires Local(ra, ref).Some? && VisitedRefs(Local(ra, ref).value, false) == {}
    requires Local(rb, ref').Some? && VisitedRefs(Local(rb, ref').value, false) == {}
    ensures
      var a, b := Obj([Field("$ref", Str(ref))]), Obj([Field("$ref", Str(ref'))]);
      && (Constraints.Constraints(a, ra, depth, false) == Constraints.Constraints(b, rb, depth, false)
          <==> SameButProse(Local(ra, ref).value, Local(rb, ref').value, false))
  {
    OneHop(ra, ref, depth);
    OneHop(rb, ref', depth);
    ResolveInOrder(ra, Tokens(ref[1..]).value);
    ResolveInOrder(rb, Tokens(ref'[1..]).value);
    ConstraintsAreExact(Local(ra, ref).value, ra, depth + 1, Local(rb, ref').value, rb, depth + 1, false);
    AlikeButProse(Local(ra, ref).value, ra, depth + 1, Local(rb, ref').value, rb, depth + 1, false);
  }

  lemma {:induction false} OneHop(root: Value, reference: string, depth: nat)
    requires Local(root, reference).Some? && depth < MAX_REF_DEPTH
    ensures Constraints.Constraints(Obj([Field("$ref", Str(reference))]), root, depth, false)
         == Constraints.Constraints(Local(root, reference).value, root, depth + 1, false)
  {
    var use := [Field("$ref", Str(reference))];
    assert Lookup(use, "$ref") == Some(Str(reference));
    assert Target(use, root, depth, false) == Local(root, reference);
  }

  // -------------------------------------------------------- as canonical text

  predicate Printable(v: Value)
    decreases v, 1
  {
    match v
    case Number(t) => IsNumberText(t)
    case Obj(fields) => forall i :: 0 <= i < |fields| ==> Printable(fields[i].value)
    case Arr(items) => forall i :: 0 <= i < |items| ==> Printable(items[i])
    case _ => true
  }

  /** A document as it is parsed: numbers that print, objects in key order. */
  predicate Parsed(v: Value) { InKeyOrder(v) && Printable(v) }

  lemma {:induction false} ParsedIsWellFormed(v: Value)
    requires Parsed(v)
    ensures WellFormed(v)
    decreases v
  {
    match v
    case Obj(fields) =>
      forall i | 0 <= i < |fields| ensures WellFormed(fields[i].value) {
        ParsedIsWellFormed(fields[i].value);
      }
    case Arr(items) =>
      forall i | 0 <= i < |items| ensures WellFormed(items[i]) {
        ParsedIsWellFormed(items[i]);
      }
    case _ =>
  }

  lemma {:induction false} TargetParsed(fields: seq<Field>, root: Value, depth: nat, names: bool)
    requires Parsed(root) && Target(fields, root, depth, names).Some?
    ensures Parsed(Target(fields, root, depth, names).value)
  {
    TargetInOrder(fields, root, depth, names);
    ResolvePrintable(root, Tokens(AsStr(Lookup(fields, "$ref")).value[1..]).value);
  }

  lemma {:induction false} ResolvePrintable(v: Value, tokens: seq<string>)
    requires Printable(v) && Resolve(v, tokens).Some?
    ensures Printable(Resolve(v, tokens).value)
    decreases tokens
  {
    if tokens != [] {
      match v
      case Obj(fields) =>
        LookupFound(fields, tokens[0]);
        ResolvePrintable(Lookup(fields, tokens[0]).value, tokens[1..]);
      case Arr(items) => ResolvePrintable(items[Index(tokens[0]).value], tokens[1..]);
    }
  }

  lemma {:induction false} ConstraintParsed(v: Value, root: Value, depth: nat, names: bool)
    requires Parsed(v) && Parsed(root)
    ensures Parsed(Constraints.Constraints(v, root, depth, names))
    decreases Fuel(depth), v, 1
  {
    if v.Obj? && Target(v.fields, root, depth, names).Some? {
      TargetParsed(v.fields, root, depth, names);
      TargetInOrder(v.fields, root, depth, names);
      ConstraintParsed(Target(v.fields, root, depth, names).value, root, depth + 1, false);
    } else {
      ConstraintHere(v, root, depth, names);
      match v
      case Obj(fields) => ConstraintFieldsParsed(fields, root, depth, names);
      case Arr(items) => ConstraintItemsParsed(items, root, depth);
      case _ =>
    }
  }

  lemma {:induction false} ConstraintFieldsParsed(fields: seq<Field>, root: Value, depth: nat, names: bool)
    requires Parsed(Obj(fields)) && Parsed(root)
    ensures Parsed(Obj(ConstraintFields(fields, root, depth, names)))
    decreases Fuel(depth), fields, 0
  {
    KeptInOrder(fields, root, depth, names);
    if fields != [] {
      RestInOrder(fields);
      var rest := fields[1..];
      assert forall i :: 0 <= i < |rest| ==> rest[i] == fields[i + 1];
      ConstraintFieldsParsed(rest, root, depth, names);
      ConstraintParsed(fields[0].value, root, depth, ChildNames(fields[0].key, names));
      DropsProse(fields, root, depth, names);
    }
  }

  lemma {:induction false} ConstraintItemsParsed(items: seq<Value>, root: Value, depth: nat)
    requires Parsed(Arr(items)) && Parsed(root)
    ensures Parsed(Arr(ConstraintItems(items, root, depth)))
    decreases Fuel(depth), items, 0
  {
    if items != [] {
      var rest := items[1..];
      assert forall i :: 0 <= i < |rest| ==> rest[i] == items[i + 1];
      ConstraintItemsParsed(rest, root, depth);
      ConstraintParsed(items[0], root, depth, false);
    }
  }

  /** The text that is digested tells two schemas apart exactly when they do not
      read alike. */
  lemma {:induction false} TextsAreExact(a: Value, ra: Value, b: Value, rb: Value, depth: nat)
    requires Parsed(a) && Parsed(ra) && Parsed(b) && Parsed(rb)
    ensures
      var x, y := Constraints.Constraints(a, ra, depth, false), Constraints.Constraints(b, rb, depth, false);
      CanonicalText(x) == CanonicalText(y) <==> ReadAlike(a, ra, depth, b, rb, depth, false)
  {
    var x, y := Constraints.Constraints(a, ra, depth, false), Constraints.Constraints(b, rb, depth, false);
    ConstraintsAreExact(a, ra, depth, b, rb, depth, false);
    ConstraintParsed(a, ra, depth, false);
    ConstraintParsed(b, rb, depth, false);
    OrderedIsNormal(x);
    OrderedIsNormal(y);
    ParsedIsWellFormed(x);
    ParsedIsWellFormed(y);
    if CanonicalText(x) == CanonicalText(y) {
      assert Print(x) + "" == Print(y) + "";
      PrintUnique(x, y, "", "");
    }
  }
}
