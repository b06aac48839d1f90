/** Call arguments rebuilt from a stored shape (src/generate.rs), and the whole
    way there: an argument's shape, sanitised, filled in again. */
module Generate {
  import opened Common
  import opened Integers
  import opened Json
  import opened Privacy
  import opened Shape
  import opened Records

  const NIL_UUID := "00000000-0000-0000-0000-000000000000"

  /** Zeros in groups of eight, four, four, four and twelve (RFC 9562, section 5.9). */
  lemma NilMeans()
    ensures |NIL_UUID| == 36
    ensures forall i :: 0 <= i < 36 ==> NIL_UUID[i] == if i in {8, 13, 18, 23} then '-' else '0'
  {
  }

  /** A value to be supplied by hand: where, and what was recorded there. */
  datatype Placeholder = Placeholder(path: string, marker: Value)

  datatype Filled = Filled(value: Value, blanks: seq<Placeholder>)

  // ----------------------------------------------------------------- skeleton

  predicate IsArrayShape(fields: seq<Field>) {
    |fields| == 2 && AsU64(Lookup(fields, "array")).Some? && Lookup(fields, "items").Some?
  }

  function Child(path: string, key: string): string { if path == "" then key else path + "." + key }

  function Leaf(marker: string, path: string, o: Outside): Option<Filled> {
    if marker == "null" then Some(Filled(Null, []))
    else if HasPrefix(marker, "enum:") then Some(Filled(Str(marker[5..]), []))
    else if HasPrefix(marker, "bool:") then
      if marker[5..] == "true" then Some(Filled(Bool(true), []))
      else if marker[5..] == "false" then Some(Filled(Bool(false), []))
      else None
    else if HasPrefix(marker, "num:") then
      (match o.parseNumber(marker[4..]) case Some(n) => Some(Filled(Number(n), [])) case None => None)
    else if marker == "uuid" then Some(Filled(Str(NIL_UUID), [Placeholder(path, Str(marker))]))
    else if HasPrefix(marker, "str<") || HasPrefix(marker, "str>") || HasPrefix(marker, "url:") then
      Some(Filled(Str(""), [Placeholder(path, Str(marker))]))
    else None
  }

  function Skeleton(shape: Value, path: string, o: Outside): Option<Filled>
    decreases shape, 1
  {
    match shape
    case Str(marker) => Leaf(marker, path, o)
    case Obj(fields) =>
      if IsArrayShape(fields) then
        Some(Filled(Arr([]), if Lookup(fields, "array") != Some(Number("0")) then [Placeholder(path, shape)] else []))
      else (match SkeletonFields(fields, path, o)
            case Some((filled, blanks)) => Some(Filled(Obj(filled), blanks))
            case None => None)
    case _ => None
  }

  function SkeletonFields(fields: seq<Field>, path: string, o: Outside): Option<(seq<Field>, seq<Placeholder>)>
    decreases fields, 0
  {
    if fields == [] then Some(([], []))
    else match Skeleton(fields[0].value, Child(path, fields[0].key), o)
      case None => None
      case Some(first) =>
        (match SkeletonFields(fields[1..], path, o)
         case None => None
         case Some((rest, blanks)) => Some(([Field(fields[0].key, first.value)] + rest, first.blanks + blanks)))
  }

  /** Fills in a shape, adding what has to be supplied to `placeholders`. */
  method BuildSkeleton(shape: Value, path: string, placeholders: seq<Placeholder>, o: Outside)
    returns (value: Option<Value>, more: seq<Placeholder>)
    ensures value.Some? <==> Skeleton(shape, path, o).Some?
    ensures value.Some? ==>
      var filled := Skeleton(shape, path, o).value;
      value.value == filled.value && more == placeholders + filled.blanks
    decreases shape, 1
  {
    more := placeholders;
    match shape {
      case Str(marker) =>
        var leaf := Leaf(marker, path, o);
        if leaf.None? {
          return None, more;
        }
        return Some(leaf.value.value), more + leaf.value.blanks;
      case Obj(fields) =>
        if IsArrayShape(fields) {
          if Lookup(fields, "array") != Some(Number("0")) {
            more := more + [Placeholder(path, shape)];
          }
          return Some(Arr([])), more;
        }
        var filled;
        filled, more := BuildFields(fields, path, placeholders, o);
        return if filled.Some? then Some(Obj(filled.value)) else None, more;
      case _ =>
        return None, more;
    }
  }

  method BuildFields(fields: seq<Field>, path: string, placeholders: seq<Placeholder>, o: Outside)
    returns (filled: Option<seq<Field>>, more: seq<Placeholder>)
    ensures filled.Some? <==> SkeletonFields(fields, path, o).Some?
    ensures filled.Some? ==>
      filled.value == SkeletonFields(fields, path, o).value.0
      && more == placeholders + SkeletonFields(fields, path, o).value.1
    decreases fields, 0
  {
    if fields == [] {
      return Some([]), placeholders;
    }
    var first;
    first, more := BuildSkeleton(fields[0].value, Child(path, fields[0].key), placeholders, o);
    if first.None? {
      return None, more;
    }
    ghost var own := Skeleton(fields[0].value, Child(path, fields[0].key), o).value.blanks;
    var rest;
    rest, more := BuildFields(fields[1..], path, more, o);
    if rest.None? {
      return None, more;
    }
    ghost var others := SkeletonFields(fields[1..], path, o).value.1;
    assert (placeholders + own) + others == placeholders + (own + others);
    filled := Some([Field(fields[0].key, first.value)] + rest.value);
  }

  // ------------------------------------------------- what is to be expected

  /** A string that survives: an identifier the schema declares at its place. */
  predicate Kept(s: string, words: Words, path: Path) { Knows(words, path, s) && ValidTool(s) }

  function Marker(s: string, words: Words, path: Path, o: Outside): string {
    SanitizeText(StringShape(s, words, path, o), o)
  }

  /** The arguments with every other string and array blanked. */
  function Expected(v: Value, words: Words, path: Path, o: Outside): Value
    decreases v, 1
  {
    match v
    case Str(s) =>
      if Kept(s, words, path) then v
      else if !Knows(words, path, s) && o.isUuid(s) then Str(NIL_UUID)
      else Str("")
    case Arr(_) => Arr([])
    case Obj(fields) => Obj(ExpectedFields(fields, words, path, o))
    case _ => v
  }

  function ExpectedFields(fields: seq<Field>, words: Words, path: Path, o: Outside): (r: seq<Field>)
    ensures |r| == |fields|
    decreases fields, 0
  {
    if fields == [] then []
    else [Field(fields[0].key, Expected(fields[0].value, words, path + [Key(fields[0].key)], o))]
         + ExpectedFields(fields[1..], words, path, o)
  }

  /** The blanked strings and non-empty arrays, in order. */
  function Blanks(v: Value, words: Words, path: Path, at: string, o: Outside): seq<Placeholder>
    decreases v, 1
  {
    match v
    case Str(s) => if Kept(s, words, path) then [] else [Placeholder(at, Str(Marker(s, words, path, o)))]
    case Arr(items) => if items == [] then [] else [Placeholder(at, SanitizeShape(ShapeAt(v, words, path, o), o))]
    case Obj(fields) => BlankFields(fields, words, path, at, o)
    case _ => []
  }

  function BlankFields(fields: seq<Field>, words: Words, path: Path, at: string, o: Outside): seq<Placeholder>
    decreases fields, 0
  {
    if fields == [] then []
    else Blanks(fields[0].value, words, path + [Key(fields[0].key)], Child(at, fields[0].key), o)
         + BlankFields(fields[1..], words, path, at, o)
  }

  // ------------------------------------------------------------- the pipeline

  function Stored(v: Value, words: Words, path: Path, o: Outside): Value {
    SanitizeShape(ShapeAt(v, words, path, o), o)
  }

  lemma {:induction false} BucketStart(s: string)
    requires s in BUCKETS
    ensures |s| >= 5 && s[0] == 's' && (HasPrefix(s, "str<") || HasPrefix(s, "str>"))
  {
  }

  lemma {:induction false} BucketLeaf(s: string, at: string, o: Outside)
    requires s in BUCKETS
    ensures Leaf(s, at, o) == Some(Filled(Str(""), [Placeholder(at, Str(s))]))
  {
    BucketStart(s);
    assert s[..5][0] == 's' && s[..4][0] == 's';
  }

  lemma {:induction false} NotAMarker(prefix: string, rest: string)
    requires prefix in {"enum:", "url:"}
    ensures !IsMarker(prefix + rest) && !HasPrefix(prefix + rest, "num:")
    ensures HasPrefix(prefix + rest, "url:") <==> prefix == "url:"
  {
    var s := prefix + rest;
    assert s[0] == prefix[0] && s[1] == prefix[1] && s[2] == prefix[2] && s[3] == prefix[3];
  }

  lemma {:induction false} EnumLeaf(s: string, at: string, o: Outside)
    ensures SanitizeText("enum:" + s, o) == if ValidTool(s) then "enum:" + s else StringBucket("enum:" + s)
    ensures Leaf("enum:" + s, at, o) == Some(Filled(Str(s), []))
  {
    PrefixOf("enum:", s);
    NotAMarker("enum:", s);
    assert ("enum:" + s)[0] == 'e';
  }

  lemma {:induction false} UrlLeaf(domain: string, at: string, o: Outside)
    ensures Leaf("url:" + domain, at, o) == Some(Filled(Str(""), [Placeholder(at, Str("url:" + domain))]))
  {
    PrefixOf("url:", domain);
    var marker := "url:" + domain;
    assert marker[0] == 'u' && marker[1] == 'r';
  }

  lemma {:induction false} NumberLeaf(n: string, at: string, o: Outside)
    requires o.parseNumber(n) == Some(n)
    ensures SanitizeText("num:" + n, o) == "num:" + n
    ensures Leaf("num:" + n, at, o) == Some(Filled(Number(n), []))
  {
    PrefixOf("num:", n);
    var marker := "num:" + n;
    assert marker[0] == 'n' && marker[2] == 'm';
    assert |marker| >= 5 ==> marker[..5][0] == 'n';
  }

  lemma {:induction false} StringLeaf(s: string, words: Words, path: Path, at: string, o: Outside)
    ensures Leaf(Marker(s, words, path, o), at, o)
         == Some(Filled(Expected(Str(s), words, path, o), Blanks(Str(s), words, path, at, o)))
  {
    var raw, marker := StringShape(s, words, path, o), Marker(s, words, path, o);
    BucketIsMarker(raw);
    BucketIsMarker(s);
    if Knows(words, path, s) {
      EnumLeaf(s, at, o);
    } else if !o.isUuid(s) && o.domainOf(s).Some? {
      UrlLeaf(o.domainOf(s).value, at, o);
    }
    if marker in BUCKETS {
      BucketLeaf(marker, at, o);
    }
  }

  lemma {:induction false} ShapeIsNoNumber(v: Value, words: Words, path: Path, o: Outside)
    ensures !ShapeAt(v, words, path, o).Number? && !SanitizeShape(ShapeAt(v, words, path, o), o).Number?
  {
    match v
    case Str(_) =>
    case Arr(_) =>
    case Obj(_) =>
    case _ =>
  }

  function StoredFields(fields: seq<Field>, words: Words, path: Path, o: Outside): (r: seq<Field>)
    ensures |r| == |fields|
  {
    SanitizeFields(ShapeFields(fields, words, path, o), o)
  }

  lemma {:induction false} StoredFieldsCons(fields: seq<Field>, words: Words, path: Path, o: Outside)
    requires fields != []
    ensures StoredFields(fields, words, path, o)
         == [Field(fields[0].key, Stored(fields[0].value, words, path + [Key(fields[0].key)], o))]
            + StoredFields(fields[1..], words, path, o)
  {
    var shaped := ShapeFields(fields, words, path, o);
    ShapeIsNoNumber(fields[0].value, words, path + [Key(fields[0].key)], o);
    assert shaped[1..] == ShapeFields(fields[1..], words, path, o);
    assert !CountsUnder(shaped[0]);
  }

  /** No object of recorded fields looks like the shape of an array. */
  lemma {:induction false} FieldsAreNoCounts(fields: seq<Field>, words: Words, path: Path, o: Outside)
    ensures forall f :: f in StoredFields(fields, words, path, o) ==> !f.value.Number?
  {
    if fields != [] {
      StoredFieldsCons(fields, words, path, o);
      ShapeIsNoNumber(fields[0].value, words, path + [Key(fields[0].key)], o);
      FieldsAreNoCounts(fields[1..], words, path, o);
    }
  }

  lemma {:induction false} StoredIsNoArray(fields: seq<Field>, words: Words, path: Path, o: Outside)
    ensures !IsArrayShape(StoredFields(fields, words, path, o))
  {
    var stored := StoredFields(fields, words, path, o);
    FieldsAreNoCounts(fields, words, path, o);
    LookupFound(stored, "array");
  }

  lemma {:induction false} DecimalZero(n: nat)
    ensures Decimal(n) == "0" <==> n == 0
  {
    DecimalReadsBack(n);
    assert "0"[..0] == "";
    assert DigitsValue("0") == 0;
  }

  lemma {:induction false} SanitizedArray(n: nat, inner: Value, o: Outside)
    requires n < 0x1_0000_0000_0000_0000
    ensures SanitizeShape(ArrayShape(n, inner), o) == ArrayShape(n, SanitizeShape(inner, o))
  {
    CountIsCount(n);
    var count, last := Field("array", Number(Decimal(n))), Field("items", inner);
    var safe := Field("items", SanitizeShape(inner, o));
    assert SanitizeFields([last], o) == [safe] + SanitizeFields([], o);
    assert [count, last][1..] == [last] && [last][1..] == [];
    assert SanitizeFields([count, last], o) == [count] + SanitizeFields([last], o);
  }

  lemma {:induction false} FilledArray(n: nat, inner: Value, at: string, o: Outside)
    requires n < 0x1_0000_0000_0000_0000
    ensures Skeleton(ArrayShape(n, inner), at, o)
         == Some(Filled(Arr([]), if n == 0 then [] else [Placeholder(at, ArrayShape(n, inner))]))
  {
    CountIsCount(n);
    DecimalZero(n);
    var count, last := Field("array", Number(Decimal(n))), Field("items", inner);
    var both := [count, last];
    assert both[1..] == [last];
    assert "array"[0] != "items"[0];
    assert Lookup(both, "array") == Some(count.value);
    assert Lookup([last], "items") == Some(inner);
    assert Lookup(both, "items") == Lookup([last], "items");
  }

  lemma {:induction false} StoredArray(items: seq<Value>, words: Words, path: Path, at: string, o: Outside)
    requires |items| < 0x1_0000_0000_0000_0000
    ensures Skeleton(Stored(Arr(items), words, path, o), at, o)
         == Some(Filled(Arr([]), Blanks(Arr(items), words, path, at, o)))
  {
    var inner := if items == [] then Str("empty") else ShapeAt(items[0], words, path + [Item], o);
    SanitizedArray(|items|, inner, o);
    FilledArray(|items|, SanitizeShape(inner, o), at, o);
  }

  /** Filling in what was stored of any argument succeeds; it gives back the
      nulls, booleans, numbers and declared identifiers, and lists exactly the
      rest. */
  lemma {:induction false} PipelineFills(v: Value, words: Words, path: Path, at: string, o: Outside)
    requires Fillable(v, o)
    ensures Skeleton(Stored(v, words, path, o), at, o)
         == Some(Filled(Expected(v, words, path, o), Blanks(v, words, path, at, o)))
    decreases v, 1
  {
    match v
    case Null => assert Stored(v, words, path, o) == Str("null");
    case Bool(b) =>
      var marker := "bool:" + BoolText(b);
      assert marker == if b then "bool:true" else "bool:false";
      PrefixOf("bool:", BoolText(b));
    case Number(n) => NumberLeaf(n, at, o);
    case Str(s) => StringLeaf(s, words, path, at, o);
    case Arr(items) => StoredArray(items, words, path, at, o);
    case Obj(fields) =>
      StoredIsNoArray(fields, words, path, o);
      FieldsFill(fields, words, path, at, o);
  }

  lemma {:induction false} FieldsFill(fields: seq<Field>, words: Words, path: Path, at: string, o: Outside)
    requires FillableFields(fields, o)
    ensures SkeletonFields(StoredFields(fields, words, path, o), at, o)
         == Some((ExpectedFields(fields, words, path, o), BlankFields(fields, words, path, at, o)))
    decreases fields, 0
  {
    if fields != [] {
      var rest := StoredFields(fields[1..], words, path, o);
      StoredFieldsCons(fields, words, path, o);
      PipelineFills(fields[0].value, words, path + [Key(fields[0].key)], Child(at, fields[0].key), o);
      FieldsFill(fields[1..], words, path, at, o);
      assert StoredFields(fields, words, path, o)[1..] == rest;
    }
  }

  /** Numbers parse as themselves and arrays have machine-sized lengths. */
  predicate Fillable(v: Value, o: Outside)
    decreases v, 1
  {
    match v
    case Number(n) => o.parseNumber(n) == Some(n)
    case Arr(items) => |items| < 0x1_0000_0000_0000_0000
    case Obj(fields) => FillableFields(fields, o)
    case _ => true
  }

  predicate FillableFields(fields: seq<Field>, o: Outside)
    decreases fields, 0
  {
    fields == [] || (Fillable(fields[0].value, o) && FillableFields(fields[1..], o))
  }

  /** What can be stored can be filled in. */
  lemma {:induction false} StorableIsFillable(v: Value, o: Outside)
    requires Storable(v, o)
    ensures Fillable(v, o)
    decreases v, 1
  {
    if v.Obj? {
      StorableFieldsAreFillable(v.fields, o);
    }
  }

  lemma {:induction false} StorableFieldsAreFillable(fields: seq<Field>, o: Outside)
    requires StorableFields(fields, o)
    ensures FillableFields(fields, o)
    decreases fields, 0
  {
    if fields != [] {
      StorableIsFillable(fields[0].value, o);
      StorableFieldsAreFillable(fields[1..], o);
    }
  }

  // ---------------------------------------------------------- leaf by leaf

  /** The value under a chain of object keys. */
  function At(v: Value, keys: seq<string>): Option<Value>
    decreases keys
  {
    if keys == [] then Some(v)
    else match Get(v, keys[0])
      case Some(child) => At(child, keys[1..])
      case None => None
  }

  function PathOf(keys: seq<string>): Path { seq(|keys|, i requires 0 <= i < |keys| => Key(keys[i])) }

  lemma {:induction false} ExpectedLookup(fields: seq<Field>, words: Words, path: Path, o: Outside, key: string)
    ensures Lookup(ExpectedFields(fields, words, path, o), key)
         == match Lookup(fields, key) case None => None case Some(v) => Some(Expected(v, words, path + [Key(key)], o))
  {
    if fields != [] {
      ExpectedLookup(fields[1..], words, path, o, key);
      assert ExpectedFields(fields, words, path, o)[1..] == ExpectedFields(fields[1..], words, path, o);
    }
  }

  /** Under every chain of keys the rebuilt arguments hold what is expected of
      the value recorded there: the same leaf, if it is one that survives. */
  lemma {:induction false} LeavesComeBack(v: Value, words: Words, path: Path, o: Outside, keys: seq<string>)
    ensures At(Expected(v, words, path, o), keys)
         == match At(v, keys) case None => None case Some(u) => Some(Expected(u, words, path + PathOf(keys), o))
    ensures At(v, keys).Some? && (At(v, keys).value.Null? || At(v, keys).value.Bool? || At(v, keys).value.Number?
                                  || (At(v, keys).value.Str?
                                      && Kept(At(v, keys).value.chars, words, path + PathOf(keys)))) ==>
      At(Expected(v, words, path, o), keys) == At(v, keys)
    decreases keys
  {
    if keys == [] {
      assert path + PathOf(keys) == path;
    } else {
      var deeper := path + [Key(keys[0])];
      assert deeper + PathOf(keys[1..]) == path + PathOf(keys);
      if v.Obj? {
        ExpectedLookup(v.fields, words, path, o, keys[0]);
        if Lookup(v.fields, keys[0]).Some? {
          LeavesComeBack(Lookup(v.fields, keys[0]).value, words, deeper, o, keys[1..]);
        }
      }
    }
  }

  /** With nothing to supply, the rebuilt arguments are the recorded ones. */
  lemma {:induction false} NothingBlankIsExact(v: Value, words: Words, path: Path, at: string, o: Outside)
    requires Blanks(v, words, path, at, o) == []
    ensures Expected(v, words, path, o) == v
    decreases v, 1
  {
    if v.Obj? {
      NoBlankFields(v.fields, words, path, at, o);
    }
  }

  lemma {:induction false} NoBlankFields(fields: seq<Field>, words: Words, path: Path, at: string, o: Outside)
    requires BlankFields(fields, words, path, at, o) == []
    ensures ExpectedFields(fields, words, path, o) == fields
    decreases fields, 0
  {
    if fields != [] {
      var f, rest := fields[0], fields[1..];
      var first := Blanks(f.value, words, path + [Key(f.key)], Child(at, f.key), o);
      assert first + BlankFields(rest, words, path, at, o) == [];
      assert first == [];
      NothingBlankIsExact(f.value, words, path + [Key(f.key)], Child(at, f.key), o);
      NoBlankFields(rest, words, path, at, o);
      assert [f] + rest == fields;
    }
  }

  // ------------------------------------------------------- what is left to supply

  /** The path text under a chain of keys. */
  function Under(at: string, keys: seq<string>): string
    decreases |keys|
  {
    if keys == [] then at else Under(Child(at, keys[0]), keys[1..])
  }

  function Joined(keys: seq<string>): string
    requires keys != []
  {
    if |keys| == 1 then keys[0] else keys[0] + "." + Joined(keys[1..])
  }

  /** Keys are joined by dots. */
  lemma {:induction false} UnderIsJoined(at: string, keys: seq<string>)
    requires keys != [] && forall i :: 0 <= i < |keys| ==> keys[i] != ""
    ensures Under(at, keys) == if at == "" then Joined(keys) else at + "." + Joined(keys)
    decreases |keys|
  {
    if |keys| > 1 {
      var next := Child(at, keys[0]);
      UnderIsJoined(next, keys[1..]);
      if at != "" {
        assert next + "." + Joined(keys[1..]) == at + "." + (keys[0] + "." + Joined(keys[1..]));
      }
    }
  }

  /** A value that has to be supplied again. */
  ghost predicate IsBlank(u: Value, words: Words, path: Path, o: Outside, marker: Value) {
    || (u.Str? && !(Knows(words, path, u.chars) && ValidTool(u.chars))
        && marker == Str(Marker(u.chars, words, path, o)))
    || (u.Arr? && u.items != [] && marker == SanitizeShape(ShapeAt(u, words, path, o), o))
  }

  /** The value under a chain of keys has to be supplied, and `p` says so. */
  ghost predicate BlankAt(v: Value, keys: seq<string>, words: Words, path: Path, at: string, o: Outside,
                          p: Placeholder) {
    && At(v, keys).Some? && p.path == Under(at, keys)
    && IsBlank(At(v, keys).value, words, path + PathOf(keys), o, p.marker)
  }

  /** What is listed to be supplied is exactly what has to be, each under the path
      of the keys that lead to it. */
  lemma {:induction false} BlanksMean(v: Value, words: Words, path: Path, at: string, o: Outside, p: Placeholder)
    requires WellFormed(v)
    ensures p in Blanks(v, words, path, at, o) <==> exists keys :: BlankAt(v, keys, words, path, at, o, p)
    decreases v, 1
  {
    assert path + PathOf([]) == path;
    if v.Obj? {
      FieldBlanksMean(v.fields, words, path, at, o, p);
      FieldsByKeys(v.fields, words, path, at, o, p);
    } else {
      assert forall keys :: At(v, keys).Some? ==> keys == [];
      assert BlankAt(v, [], words, path, at, o, p) <==> p.path == at && IsBlank(v, words, path, o, p.marker);
    }
  }

  /** A blank below one of the fields. */
  ghost predicate BlankBelow(f: Field, words: Words, path: Path, at: string, o: Outside, p: Placeholder) {
    exists keys :: BlankAt(f.value, keys, words, path + [Key(f.key)], Child(at, f.key), o, p)
  }

  lemma {:induction false} FieldBlanksMean(fields: seq<Field>, words: Words, path: Path, at: string, o: Outside,
                                           p: Placeholder)
    requires forall i :: 0 <= i < |fields| ==> WellFormed(fields[i].value)
    ensures p in BlankFields(fields, words, path, at, o) <==>
      exists i :: 0 <= i < |fields| && BlankBelow(fields[i], words, path, at, o, p)
    decreases fields, 0
  {
    if fields != [] {
      BlanksMean(fields[0].value, words, path + [Key(fields[0].key)], Child(at, fields[0].key), o, p);
      FieldBlanksMean(fields[1..], words, path, at, o, p);
      if i :| 0 <= i < |fields| && BlankBelow(fields[i], words, path, at, o, p) {
        assert i > 0 ==> fields[1..][i - 1] == fields[i];
      }
      if i :| 0 <= i < |fields| - 1 && BlankBelow(fields[1..][i], words, path, at, o, p) {
        assert fields[1..][i] == fields[i + 1];
      }
    }
  }

  lemma {:induction false} FieldsByKeys(fields: seq<Field>, words: Words, path: Path, at: string, o: Outside,
                                        p: Placeholder)
    requires WellFormed(Obj(fields))
    ensures (exists i :: 0 <= i < |fields| && BlankBelow(fields[i], words, path, at, o, p)) <==>
      exists keys :: BlankAt(Obj(fields), keys, words, path, at, o, p)
  {
    if i :| 0 <= i < |fields| && BlankBelow(fields[i], words, path, at, o, p) {
      var f := fields[i];
      var keys :| BlankAt(f.value, keys, words, path + [Key(f.key)], Child(at, f.key), o, p);
      BlankUp(fields, i, keys, words, path, at, o, p);
    }
    if keys :| BlankAt(Obj(fields), keys, words, path, at, o, p) {
      var i := BlankDown(fields, keys, words, path, at, o, p);
    }
  }

  lemma {:induction false} BlankDown(fields: seq<Field>, keys: seq<string>, words: Words, path: Path, at: string,
                                     o: Outside, p: Placeholder) returns (i: nat)
    requires WellFormed(Obj(fields)) && BlankAt(Obj(fields), keys, words, path, at, o, p)
    ensures i < |fields| && BlankBelow(fields[i], words, path, at, o, p)
  {
    assert keys != [];
    var rest := keys[1..];
    LookupFound(fields, keys[0]);
    i :| 0 <= i < |fields| && fields[i].key == keys[0];
    assert keys == [keys[0]] + rest;
    BlankUp(fields, i, rest, words, path, at, o, p);
    assert BlankAt(fields[i].value, rest, words, path + [Key(fields[i].key)], Child(at, fields[i].key), o, p);
  }

  /** A blank below a field is one under its key. */
  lemma {:induction false} BlankUp(fields: seq<Field>, i: nat, keys: seq<string>, words: Words, path: Path, at: string,
                                   o: Outside, p: Placeholder)
    requires WellFormed(Obj(fields)) && i < |fields|
    ensures
      var f := fields[i];
      BlankAt(f.value, keys, words, path + [Key(f.key)], Child(at, f.key), o, p) <==>
        BlankAt(Obj(fields), [f.key] + keys, words, path, at, o, p)
  {
    var f := fields[i];
    var all := [f.key] + keys;
    LookupAt(fields, i);
    assert all[1..] == keys;
    assert path + [Key(f.key)] + PathOf(keys) == path + PathOf(all);
    assert At(Obj(fields), all) == At(f.value, keys);
  }
}
