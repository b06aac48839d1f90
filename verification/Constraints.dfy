/** The schema normaliser behind a constraint digest (src/catalog_contract.rs):
    prose dropped, keys sorted, local `$ref`s replaced by their targets. */
module Constraints {
  import opened Common
  import opened Json
  import Canonical

  /** `$ref` hops followed while digesting a constraint. */
  const MAX_REF_DEPTH: nat := 8

  /** Schema keywords that carry prose, not constraints. */
  const PROSE: set<string> := {"description", "title", "examples", "$comment", "default"}

  /** Keywords whose object keys are names, not keywords. */
  const NAME_MAPS: set<string> :=
    {"properties", "patternProperties", "$defs", "definitions", "dependentSchemas"}

  // ------------------------------------- JSON Pointer (RFC 6901, section 4)

  /** `str::replace` of the two characters `a`, `b` by `c`. */
  function Replace(s: string, a: char, b: char, c: char): string {
    if |s| < 2 then s
    else if s[0] == a && s[1] == b then [c] + Replace(s[2..], a, b, c)
    else [s[0]] + Replace(s[1..], a, b, c)
  }

  function Unescape(token: string): string {
    Replace(Replace(token, '~', '1', '/'), '~', '0', '~')
  }

  function UnescapeAll(tokens: seq<string>): seq<string> {
    if tokens == [] then [] else [Unescape(tokens[0])] + UnescapeAll(tokens[1..])
  }

  function Digits(s: string): Option<nat> {
    if s == "" then Some(0)
    else
      var front := Digits(s[..|s| - 1]);
      var c := s[|s| - 1];
      if front.Some? && '0' <= c <= '9' then Some(10 * front.value + (c as int - '0' as int)) else None
  }

  /** An array index: decimal digits, no sign, no leading zero. */
  function Index(token: string): Option<nat> {
    if token == "" || (token[0] == '0' && |token| != 1) then None else Digits(token)
  }

  function Resolve(v: Value, tokens: seq<string>): Option<Value>
    decreases tokens
  {
    if tokens == [] then Some(v)
    else match v
      case Obj(fields) =>
        (match Lookup(fields, tokens[0])
         case None => None
         case Some(child) => Resolve(child, tokens[1..]))
      case Arr(items) =>
        (match Index(tokens[0])
         case Some(i) => if i < |items| then Resolve(items[i], tokens[1..]) else None
         case None => None)
      case _ => None
  }

  /** The tokens of a pointer, or none when it is not one. */
  function Tokens(pointer: string): Option<seq<string>> {
    if pointer == "" then Some([])
    else if pointer[0] != '/' then None
    else Some(UnescapeAll(Split(pointer)[1..]))
  }

  /** `Value::pointer`. */
  function Pointer(root: Value, pointer: string): Option<Value> {
    match Tokens(pointer)
    case None => None
    case Some(tokens) => Resolve(root, tokens)
  }

  /** `strip_prefix('#')` then `Value::pointer`: only local references resolve. */
  function Local(root: Value, reference: string): Option<Value> {
    if reference != "" && reference[0] == '#' then Pointer(root, reference[1..]) else None
  }

  // --------------------------------------------------------- normalisation

  predicate Kept(key: string, names: bool) { names || key !in PROSE }

  predicate ChildNames(key: string, names: bool) { !names && key in NAME_MAPS }

  /** The target a schema object is replaced by, when it is. */
  function Target(fields: seq<Field>, root: Value, depth: nat, names: bool): Option<Value> {
    match AsStr(Lookup(fields, "$ref"))
    case None => None
    case Some(reference) => if depth < MAX_REF_DEPTH && !names then Local(root, reference) else None
  }

  function Fuel(depth: nat): nat { if depth < MAX_REF_DEPTH then MAX_REF_DEPTH - depth else 0 }

  /** Total on every schema, cyclic references included: a hop spends depth,
      every other call descends. */
  function Constraints(schema: Value, root: Value, depth: nat, names: bool): Value
    decreases Fuel(depth), schema, 1
  {
    match schema
    case Obj(fields) =>
      (match Target(fields, root, depth, names)
       case Some(target) => Constraints(target, root, depth + 1, false)
       case None => Obj(Canonical.SortFields(ConstraintFields(fields, root, depth, names))))
    case Arr(items) => Arr(ConstraintItems(items, root, depth))
    case _ => schema
  }

  function ConstraintFields(fields: seq<Field>, root: Value, depth: nat, names: bool): seq<Field>
    decreases Fuel(depth), fields, 0
  {
    if fields == [] then []
    else
      var key := fields[0].key;
      var rest := ConstraintFields(fields[1..], root, depth, names);
      if Kept(key, names)
      then [Field(key, Constraints(fields[0].value, root, depth, ChildNames(key, names)))] + rest
      else rest
  }

  function ConstraintItems(items: seq<Value>, root: Value, depth: nat): seq<Value>
    decreases Fuel(depth), items, 0
  {
    if items == [] then []
    else [Constraints(items[0], root, depth, false)] + ConstraintItems(items[1..], root, depth)
  }

  /** In keyword position exactly the non-prose keys survive; among names every
      key survives, so a parameter called `description` is still a parameter. */
  lemma {:induction false} KeysKept(fields: seq<Field>, root: Value, depth: nat, names: bool)
    ensures Keys(ConstraintFields(fields, root, depth, names))
         == set key | key in Keys(fields)
              && (names || key !in {"description", "title", "examples", "$comment", "default"})
  {
    if fields != [] {
      KeysKept(fields[1..], root, depth, names);
      var r := ConstraintFields(fields, root, depth, names);
      var rest := ConstraintFields(fields[1..], root, depth, names);
      KeysCons(fields);
      if Kept(fields[0].key, names) {
        assert r[1..] == rest;
        KeysCons(r);
      }
    }
  }

  lemma {:induction false} KeysCons(fields: seq<Field>)
    requires fields != []
    ensures Keys(fields) == {fields[0].key} + Keys(fields[1..])
  {
    forall k ensures k in Keys(fields) <==> k in {fields[0].key} + Keys(fields[1..]) {
      if k in Keys(fields) {
        var i :| 0 <= i < |fields| && fields[i].key == k;
        assert i > 0 ==> fields[1..][i - 1].key == k;
      }
      if k in Keys(fields[1..]) {
        var i :| 0 <= i < |fields| - 1 && fields[1..][i].key == k;
        assert fields[i + 1].key == k;
      }
    }
  }

  // ------------------------------------------------ prose edits do not show

  /** `a` and `b` differ only under prose keywords in keyword position. */
  predicate SameButProse(a: Value, b: Value, names: bool)
    decreases a, 1, 0
  {
    match a
    case Obj(fields) => b.Obj? && SameKept(fields, b.fields, names)
    case Arr(items) => b.Arr? && SameItems(items, b.items)
    case _ => a == b
  }

  predicate SameKept(a: seq<Field>, b: seq<Field>, names: bool)
    decreases a, 0, |b|
  {
    if a != [] && !Kept(a[0].key, names) then SameKept(a[1..], b, names)
    else if b != [] && !Kept(b[0].key, names) then SameKept(a, b[1..], names)
    else if a == [] || b == [] then a == b
    else
      && a[0].key == b[0].key
      && SameButProse(a[0].value, b[0].value, ChildNames(a[0].key, names))
      && SameKept(a[1..], b[1..], names)
  }

  predicate SameItems(a: seq<Value>, b: seq<Value>)
    decreases a, 0, |b|
  {
    if a == [] || b == [] then a == b
    else SameButProse(a[0], b[0], false) && SameItems(a[1..], b[1..])
  }

  /** The `$ref` strings normalising `v` can meet before following any. */
  function VisitedRefs(v: Value, names: bool): set<string>
    decreases v, 1
  {
    match v
    case Obj(fields) =>
      var own := AsStr(Lookup(fields, "$ref"));
      (if own.Some? then {own.value} else {}) + FieldRefs(fields, names)
    case Arr(items) => ItemRefs(items)
    case _ => {}
  }

  function FieldRefs(fields: seq<Field>, names: bool): set<string>
    decreases fields, 0
  {
    if fields == [] then {}
    else
      (if Kept(fields[0].key, names)
       then VisitedRefs(fields[0].value, ChildNames(fields[0].key, names)) else {})
      + FieldRefs(fields[1..], names)
  }

  /** Prose refers to nothing. */
  lemma {:induction false} ProseRefersToNothing(fields: seq<Field>)
    requires forall i :: 0 <= i < |fields| ==> fields[i].key in PROSE
    ensures VisitedRefs(Obj(fields), false) == {}
  {
    FieldsReferToNothing(fields);
    LookupFound(fields, "$ref");
  }

  lemma {:induction false} FieldsReferToNothing(fields: seq<Field>)
    requires forall i :: 0 <= i < |fields| ==> fields[i].key in PROSE
    ensures FieldRefs(fields, false) == {}
  {
    if fields != [] {
      FieldsReferToNothing(fields[1..]);
    }
  }

  function ItemRefs(items: seq<Value>): set<string>
    decreases items, 0
  {
    if items == [] then {} else VisitedRefs(items[0], false) + ItemRefs(items[1..])
  }

  /** A kept key finds related values on both sides. */
  lemma {:induction false} KeptLookup(a: seq<Field>, b: seq<Field>, names: bool, key: string)
    requires SameKept(a, b, names) && Kept(key, names)
    ensures Lookup(a, key).Some? <==> Lookup(b, key).Some?
    ensures Lookup(a, key).Some? ==>
              SameButProse(Lookup(a, key).value, Lookup(b, key).value, ChildNames(key, names))
    decreases |a| + |b|
  {
    if a != [] && !Kept(a[0].key, names) {
      KeptLookup(a[1..], b, names, key);
    } else if b != [] && !Kept(b[0].key, names) {
      KeptLookup(a, b[1..], names, key);
    } else if a != [] && a[0].key != key {
      KeptLookup(a[1..], b[1..], names, key);
    }
  }

  lemma {:induction false} LookupRefs(fields: seq<Field>, names: bool, key: string)
    requires Kept(key, names) && Lookup(fields, key).Some?
    ensures VisitedRefs(Lookup(fields, key).value, ChildNames(key, names)) <= FieldRefs(fields, names)
  {
    if fields[0].key != key {
      LookupRefs(fields[1..], names, key);
    }
  }

  lemma {:induction false} ItemRefsAt(items: seq<Value>, i: nat)
    requires i < |items|
    ensures VisitedRefs(items[i], false) <= ItemRefs(items)
  {
    if i > 0 {
      ItemRefsAt(items[1..], i - 1);
    }
  }

  lemma {:induction false} SameItemsAt(a: seq<Value>, b: seq<Value>)
    requires SameItems(a, b)
    ensures |a| == |b| && forall i :: 0 <= i < |a| ==> SameButProse(a[i], b[i], false)
  {
    if a != [] && b != [] {
      SameItemsAt(a[1..], b[1..]);
    }
  }

  /** What a reference must satisfy to be blind to prose edits of `ra` into `rb`. */
  predicate Agrees(ra: Value, rb: Value, refs: set<string>, reference: string) {
    var a, b := Local(ra, reference), Local(rb, reference);
    && (a.Some? <==> b.Some?)
    && (a.Some? ==> SameButProse(a.value, b.value, false) && VisitedRefs(a.value, false) <= refs)
  }

  lemma {:induction false} TargetsAgree(a: seq<Field>, b: seq<Field>, ra: Value, rb: Value, depth: nat,
                     names: bool, refs: set<string>)
    requires SameKept(a, b, names) && VisitedRefs(Obj(a), names) <= refs
    requires forall r :: r in refs ==> Agrees(ra, rb, refs, r)
    ensures Target(a, ra, depth, names).Some? <==> Target(b, rb, depth, names).Some?
    ensures Target(a, ra, depth, names).Some? ==>
              && depth < MAX_REF_DEPTH
              && SameButProse(Target(a, ra, depth, names).value, Target(b, rb, depth, names).value, false)
              && VisitedRefs(Target(a, ra, depth, names).value, false) <= refs
  {
    KeptLookup(a, b, names, "$ref");
    var own := AsStr(Lookup(a, "$ref"));
    assert own == AsStr(Lookup(b, "$ref"));
    if own.Some? {
      assert own.value in VisitedRefs(Obj(a), names);
      assert Agrees(ra, rb, refs, own.value);
    }
  }

  lemma {:induction false} Invisible(a: Value, b: Value, ra: Value, rb: Value, depth: nat,
                                     names: bool, refs: set<string>)
    requires SameButProse(a, b, names) && VisitedRefs(a, names) <= refs
    requires forall r :: r in refs ==> Agrees(ra, rb, refs, r)
    ensures Constraints(a, ra, depth, names) == Constraints(b, rb, depth, names)
    decreases Fuel(depth), a, 2, 0
  {
    if a.Obj? {
      if Target(a.fields, ra, depth, names).Some? {
        InvisibleHop(a.fields, b.fields, ra, rb, depth, names, refs);
      } else {
        InvisibleObject(a.fields, b.fields, ra, rb, depth, names, refs);
      }
    } else if a.Arr? {
      assert ItemRefs(a.items) <= refs;
      InvisibleItems(a.items, b.items, ra, rb, depth, refs);
    }
  }

  lemma {:induction false} InvisibleHop(a: seq<Field>, b: seq<Field>, ra: Value, rb: Value,
                                        depth: nat, names: bool, refs: set<string>)
    requires SameKept(a, b, names) && VisitedRefs(Obj(a), names) <= refs
    requires forall r :: r in refs ==> Agrees(ra, rb, refs, r)
    requires Target(a, ra, depth, names).Some?
    ensures Constraints(Obj(a), ra, depth, names) == Constraints(Obj(b), rb, depth, names)
    decreases Fuel(depth), Obj(a), 1, 0
  {
    TargetsAgree(a, b, ra, rb, depth, names, refs);
    Invisible(Target(a, ra, depth, names).value, Target(b, rb, depth, names).value,
              ra, rb, depth + 1, false, refs);
  }

  lemma {:induction false} InvisibleObject(a: seq<Field>, b: seq<Field>, ra: Value, rb: Value,
                                           depth: nat, names: bool, refs: set<string>)
    requires SameKept(a, b, names) && VisitedRefs(Obj(a), names) <= refs
    requires forall r :: r in refs ==> Agrees(ra, rb, refs, r)
    requires Target(a, ra, depth, names).None?
    ensures Constraints(Obj(a), ra, depth, names) == Constraints(Obj(b), rb, depth, names)
    decreases Fuel(depth), Obj(a), 1, 0
  {
    TargetsAgree(a, b, ra, rb, depth, names, refs);
    assert FieldRefs(a, names) <= refs;
    InvisibleFields(a, b, ra, rb, depth, names, refs);
  }

  lemma {:induction false} InvisibleFields(a: seq<Field>, b: seq<Field>, ra: Value, rb: Value,
                                           depth: nat, names: bool, refs: set<string>)
    requires SameKept(a, b, names) && FieldRefs(a, names) <= refs
    requires forall r :: r in refs ==> Agrees(ra, rb, refs, r)
    ensures ConstraintFields(a, ra, depth, names) == ConstraintFields(b, rb, depth, names)
    decreases Fuel(depth), a, 0, |b|
  {
    if a != [] && !Kept(a[0].key, names) {
      InvisibleFields(a[1..], b, ra, rb, depth, names, refs);
    } else if b != [] && !Kept(b[0].key, names) {
      InvisibleFields(a, b[1..], ra, rb, depth, names, refs);
    } else if a != [] {
      Invisible(a[0].value, b[0].value, ra, rb, depth, ChildNames(a[0].key, names), refs);
      InvisibleFields(a[1..], b[1..], ra, rb, depth, names, refs);
    }
  }

  lemma {:induction false} InvisibleItems(a: seq<Value>, b: seq<Value>, ra: Value, rb: Value,
                                          depth: nat, refs: set<string>)
    requires SameItems(a, b) && ItemRefs(a) <= refs
    requires forall r :: r in refs ==> Agrees(ra, rb, refs, r)
    ensures ConstraintItems(a, ra, depth) == ConstraintItems(b, rb, depth)
    decreases Fuel(depth), a, 0, |b|
  {
    if a != [] && b != [] {
      Invisible(a[0], b[0], ra, rb, depth, false, refs);
      InvisibleItems(a[1..], b[1..], ra, rb, depth, refs);
    }
  }

  /** The path `tokens` never enters prose, and ends where keywords are read. */
  predicate OffProse(v: Value, tokens: seq<string>, names: bool)
    decreases tokens
  {
    if tokens == [] then !names
    else match v
      case Obj(fields) =>
        && Kept(tokens[0], names)
        && (Lookup(fields, tokens[0]).Some? ==>
              OffProse(Lookup(fields, tokens[0]).value, tokens[1..], ChildNames(tokens[0], names)))
      case Arr(items) =>
        Index(tokens[0]).Some? && Index(tokens[0]).value < |items| ==>
          OffProse(items[Index(tokens[0]).value], tokens[1..], false)
      case _ => true
  }

  predicate ReferenceOffProse(root: Value, reference: string) {
    reference != "" && reference[0] == '#' && Tokens(reference[1..]).Some? ==>
      OffProse(root, Tokens(reference[1..]).value, false)
  }

  lemma {:induction false} ResolveOffProse(a: Value, b: Value, tokens: seq<string>, names: bool)
    requires SameButProse(a, b, names) && OffProse(a, tokens, names)
    ensures Resolve(a, tokens).Some? <==> Resolve(b, tokens).Some?
    ensures Resolve(a, tokens).Some? ==>
              && SameButProse(Resolve(a, tokens).value, Resolve(b, tokens).value, false)
              && VisitedRefs(Resolve(a, tokens).value, false) <= VisitedRefs(a, names)
    decreases tokens
  {
    if tokens != [] {
      match a {
        case Obj(fields) =>
          KeptLookup(fields, b.fields, names, tokens[0]);
          if Lookup(fields, tokens[0]).Some? {
            LookupRefs(fields, names, tokens[0]);
            ResolveOffProse(Lookup(fields, tokens[0]).value, Lookup(b.fields, tokens[0]).value,
                            tokens[1..], ChildNames(tokens[0], names));
          }
        case Arr(items) =>
          SameItemsAt(items, b.items);
          var i := Index(tokens[0]);
          if i.Some? && i.value < |items| {
            ItemRefsAt(items, i.value);
            ResolveOffProse(items[i.value], b.items[i.value], tokens[1..], false);
          }
        case _ =>
      }
    }
  }

  /** Rewording a document's prose changes no constraint in it, as long as no
      reference that can be followed points through the prose or into a map of
      names. */
  lemma {:induction false} ProseEditsAreInvisible(a: Value, b: Value, ra: Value, rb: Value)
    requires SameButProse(a, b, false) && SameButProse(ra, rb, false)
    requires forall r :: r in VisitedRefs(a, false) + VisitedRefs(ra, false) ==> ReferenceOffProse(ra, r)
    ensures Constraints(a, ra, 0, false) == Constraints(b, rb, 0, false)
  {
    var refs := VisitedRefs(a, false) + VisitedRefs(ra, false);
    forall r | r in refs ensures Agrees(ra, rb, refs, r) {
      assert ReferenceOffProse(ra, r);
      if r != "" && r[0] == '#' && Tokens(r[1..]).Some? {
        ResolveOffProse(ra, rb, Tokens(r[1..]).value, false);
      }
    }
    Invisible(a, b, ra, rb, 0, false, refs);
  }

  predicate Plain(token: string) {
    forall i :: 0 <= i < |token| ==> token[i] != '/' && token[i] != '~'
  }

  lemma {:induction false} PlainSplit(token: string)
    requires Plain(token)
    ensures Split(token) == [token]
  {
    if token != "" {
      PlainSplit(token[1..]);
      assert token == [token[0]] + token[1..];
    }
  }

  lemma {:induction false} PlainReplace(token: string, b: char, c: char)
    requires Plain(token)
    ensures Replace(token, '~', b, c) == token
  {
    if |token| >= 2 {
      PlainReplace(token[1..], b, c);
    }
  }

  lemma {:induction false} PlainPointer(token: string)
    requires Plain(token)
    ensures Tokens("/" + token) == Some([token])
  {
    var text := "/" + token;
    assert text[1..] == token;
    PlainSplit(token);
    assert Split(text) == ["", token];
    PlainReplace(token, '1', '/');
    PlainReplace(token, '0', '~');
    assert Unescape(token) == token;
    assert [token][1..] == [] && UnescapeAll([]) == [];
    assert UnescapeAll([token]) == [token];
    assert Split(text)[1..] == [token];
  }

  /** The proviso is needed: whichever prose keyword a reference points at, and
      whatever two texts it holds before and after, the edit shows. */
  lemma {:induction false} ReferencedProseShows(key: string, before: string, after: string)
    requires key in PROSE && before != after
    ensures
      var ra, rb := Obj([Field(key, Str(before))]), Obj([Field(key, Str(after))]);
      var use := Obj([Field("$ref", Str("#/" + key))]);
      SameButProse(ra, rb, false) && Constraints(use, ra, 0, false) != Constraints(use, rb, 0, false)
  {
    var ra, rb := Obj([Field(key, Str(before))]), Obj([Field(key, Str(after))]);
    assert SameKept(ra.fields[1..], rb.fields[1..], false);
    assert SameKept(ra.fields[1..], rb.fields, false);
    assert Plain(key);
    HopTo(key, Str(before), ra, 0);
    HopTo(key, Str(after), rb, 0);
  }

  lemma {:induction false} LocalHit(key: string, value: Value)
    requires Tokens("/" + key) == Some([key])
    ensures Local(Obj([Field(key, value)]), "#/" + key) == Some(value)
  {
    assert ("#/" + key)[1..] == "/" + key;
    var root := Obj([Field(key, value)]);
    assert Lookup(root.fields, key) == Some(value);
    assert Resolve(root, [key]) == Resolve(value, [key][1..]);
  }

  lemma {:induction false} SortedOne(f: Field)
    ensures Canonical.SortFields([f]) == [f]
  {
    assert [f][..0] == [];
  }

  /** A lone field that is kept and no reference. */
  lemma {:induction false} OneFieldKept(key: string, value: Value, root: Value, depth: nat, names: bool)
    requires Kept(key, names) && key != "$ref"
    ensures Constraints(Obj([Field(key, value)]), root, depth, names)
         == Obj([Field(key, Constraints(value, root, depth, ChildNames(key, names)))])
  {
    var fields := [Field(key, value)];
    assert fields[1..] == [];
    assert Lookup(fields, "$ref") == None;
    var kept := Field(key, Constraints(value, root, depth, ChildNames(key, names)));
    assert ConstraintFields(fields, root, depth, names) == [kept] + ConstraintFields([], root, depth, names);
    SortedOne(kept);
  }

  /** The keywords whose keys are names are five: below them, and only there, a
      key that is a prose keyword elsewhere stays. */
  lemma {:induction false} NamesKept(key: string, prose: string, text: string, root: Value, depth: nat)
    requires key !in PROSE && key != "$ref" && prose in PROSE
    ensures
      var names := key in {"properties", "patternProperties", "$defs", "definitions", "dependentSchemas"};
      Constraints(Obj([Field(key, Obj([Field(prose, Str(text))]))]), root, depth, false)
        == Obj([Field(key, Obj(if names then [Field(prose, Str(text))] else []))])
  {
    var low := [Field(prose, Str(text))];
    OneFieldKept(key, Obj(low), root, depth, false);
    if key in NAME_MAPS {
      OneFieldKept(prose, Str(text), root, depth, true);
    } else {
      assert low[1..] == [] && Lookup(low, "$ref") == None;
      assert ConstraintFields(low, root, depth, false) == [];
    }
  }

  /** Eight references are followed and the ninth is kept as it stands. */
  lemma {:induction false} HopsMean(reference: string, root: Value, depth: nat)
    requires Local(root, reference).Some?
    ensures
      var use := Obj([Field("$ref", Str(reference))]);
      Constraints(use, root, depth, false)
        == if depth < 8 then Constraints(Local(root, reference).value, root, depth + 1, false) else use
  {
    var f := Field("$ref", Str(reference));
    assert Lookup([f], "$ref") == Some(Str(reference)) && [f][1..] == [];
    if depth >= MAX_REF_DEPTH {
      assert ConstraintFields([f], root, depth, false) == [f] + ConstraintFields([], root, depth, false);
      SortedOne(f);
    }
  }

  /** A document that keeps prose of a property called like a name map. */
  function Nested(outer: string, inner: string, key: string, text: string): Value {
    Obj([Field(outer, Obj([Field(inner, Obj([Field(key, Str(text))]))]))])
  }

  /** A reference to the only field of a document is replaced by that field. */
  lemma {:induction false} HopTo(token: string, target: Value, root: Value, depth: nat)
    requires Plain(token) && root == Obj([Field(token, target)]) && depth < MAX_REF_DEPTH
    ensures Constraints(Obj([Field("$ref", Str("#/" + token))]), root, depth, false)
         == Constraints(target, root, depth + 1, false)
  {
    PlainPointer(token);
    LocalHit(token, target);
    var use := [Field("$ref", Str("#/" + token))];
    assert Lookup(use, "$ref") == Some(Str("#/" + token));
    assert Target(use, root, depth, false) == Some(target);
  }

  lemma {:induction false} NamesRead(inner: string, key: string, text: string, root: Value, depth: nat)
    requires inner in NAME_MAPS && key in PROSE
    ensures
      var target := Obj([Field(inner, Obj([Field(key, Str(text))]))]);
      Constraints(target, root, depth, false) == target
  {
    OneFieldKept(inner, Obj([Field(key, Str(text))]), root, depth, false);
    OneFieldKept(key, Str(text), root, depth, true);
  }

  /** What a reference to the outer name map is replaced by: read from there, the
      inner name is a keyword, and what was prose below it is a name. */
  lemma {:induction false} NestedConstraint(outer: string, inner: string, key: string, text: string, depth: nat)
    requires outer in NAME_MAPS && inner in NAME_MAPS && key in PROSE && depth < MAX_REF_DEPTH
    ensures Constraints(Obj([Field("$ref", Str("#/" + outer))]), Nested(outer, inner, key, text), depth, false)
         == Obj([Field(inner, Obj([Field(key, Str(text))]))])
  {
    var root := Nested(outer, inner, key, text);
    assert Plain(outer);
    HopTo(outer, Obj([Field(inner, Obj([Field(key, Str(text))]))]), root, depth);
    NamesRead(inner, key, text, root, depth + 1);
  }

  lemma {:induction false} NestedEdit(outer: string, inner: string, key: string, before: string, after: string)
    requires outer in NAME_MAPS && inner in NAME_MAPS && key in PROSE
    ensures SameButProse(Nested(outer, inner, key, before), Nested(outer, inner, key, after), false)
  {
    var low, low' := [Field(key, Str(before))], [Field(key, Str(after))];
    assert SameKept(low[1..], low'[1..], false);
    assert SameKept(low[1..], low', false);
    assert SameKept(low, low', false);
    assert SameButProse(Obj(low), Obj(low'), false);
    var mid, mid' := [Field(inner, Obj(low))], [Field(inner, Obj(low'))];
    assert SameKept(mid[1..], mid'[1..], true);
    assert SameButProse(Obj(mid), Obj(mid'), true);
    var top, top' := [Field(outer, Obj(mid))], [Field(outer, Obj(mid'))];
    assert SameKept(top[1..], top'[1..], false);
  }

  /** So is the other half: a reference that ends at a map of names points at no
      prose, and yet the edit below a name that is also a keyword shows. */
  lemma {:induction false} ReferencedNamesShow(outer: string, inner: string, key: string, before: string, after: string)
    requires outer in NAME_MAPS && inner in NAME_MAPS && key in PROSE && before != after
    ensures
      var ra, rb := Nested(outer, inner, key, before), Nested(outer, inner, key, after);
      var use := Obj([Field("$ref", Str("#/" + outer))]);
      SameButProse(ra, rb, false) && Constraints(use, ra, 0, false) != Constraints(use, rb, 0, false)
  {
    NestedEdit(outer, inner, key, before, after);
    NestedConstraint(outer, inner, key, before, 0);
    NestedConstraint(outer, inner, key, after, 0);
    var low, low' := [Field(key, Str(before))], [Field(key, Str(after))];
    assert low[0] != low'[0];
    var mid, mid' := [Field(inner, Obj(low))], [Field(inner, Obj(low'))];
    assert mid[0] != mid'[0];
  }
}
