/** Argument shapes (src/shape.rs): the enum values a tool's schema declares,
    and the value-free description of an argument. */
module Shape {
  import opened Common
  import opened Integers
  import opened Json

  datatype Segment = Key(name: string) | Item

  type Path = seq<Segment>

  /** The declared words at each path of one tool's schema. */
  type Words = map<Path, set<string>>

  /** What is decided outside this model: UUID, URL and number syntax. A number
      that parses prints as the text given for it. */
  datatype Outside = Outside(isUuid: string -> bool, domainOf: string -> Option<string>,
                             parseNumber: string -> Option<string>)

  // ----------------------------------------------------------- schema walking

  predicate Knows(words: Words, path: Path, word: string) { path in words && word in words[path] }

  function ItemsOf(v: Option<Value>): seq<Value> { if v.Some? && v.value.Arr? then v.value.items else [] }

  function FieldsOf(v: Option<Value>): seq<Field> { if v.Some? && v.value.Obj? then v.value.fields else [] }

  lemma {:induction false} GetIsSmaller(v: Value, key: string)
    ensures Get(v, key).Some? ==> Get(v, key).value < v
  {
    if v.Obj? {
      LookupFound(v.fields, key);
    }
  }

  /** The schema admits `word` among the enum values at `path`: through any
      branch, property or item schema on the way. */
  predicate Declares(schema: Value, path: Path, word: string)
    decreases schema, 1
  {
    GetIsSmaller(schema, "oneOf");
    GetIsSmaller(schema, "anyOf");
    GetIsSmaller(schema, "allOf");
    GetIsSmaller(schema, "properties");
    GetIsSmaller(schema, "items");
    || (path == [] && Str(word) in ItemsOf(Get(schema, "enum")))
    || (ItemsOf(Get(schema, "oneOf")) != [] && AnyDeclares(ItemsOf(Get(schema, "oneOf")), path, word))
    || (ItemsOf(Get(schema, "anyOf")) != [] && AnyDeclares(ItemsOf(Get(schema, "anyOf")), path, word))
    || (ItemsOf(Get(schema, "allOf")) != [] && AnyDeclares(ItemsOf(Get(schema, "allOf")), path, word))
    || (FieldsOf(Get(schema, "properties")) != [] && PropertyDeclares(FieldsOf(Get(schema, "properties")), path, word))
    || (path != [] && path[0] == Item && Get(schema, "items").Some?
        && Declares(Get(schema, "items").value, path[1..], word))
  }

  predicate AnyDeclares(branches: seq<Value>, path: Path, word: string)
    decreases branches, 0
  {
    exists i :: 0 <= i < |branches| && Declares(branches[i], path, word)
  }

  predicate PropertyDeclares(fields: seq<Field>, path: Path, word: string)
    decreases fields, 0
  {
    exists i :: 0 <= i < |fields| && path != [] && path[0] == Key(fields[i].key)
                && Declares(fields[i].value, path[1..], word)
  }

  /** An item of the array under a key. */
  predicate IsListed(v: Value, key: string, item: Value) {
    Get(v, key).Some? && Get(v, key).value.Arr? && item in Get(v, key).value.items
  }

  /** A property schema of that name. */
  predicate IsProperty(v: Value, name: string, p: Value) {
    && Get(v, "properties").Some? && Get(v, "properties").value.Obj?
    && Field(name, p) in Get(v, "properties").value.fields
  }

  /** A word is declared here, in a branch, below the property the path goes on
      with, or below the items. */
  lemma {:induction false} DeclaresMean(schema: Value, path: Path, word: string)
    ensures Declares(schema, path, word) <==>
      || (path == [] && IsListed(schema, "enum", Str(word)))
      || (exists b :: Declares(b, path, word)
            && (IsListed(schema, "oneOf", b) || IsListed(schema, "anyOf", b) || IsListed(schema, "allOf", b)))
      || (path != [] && path[0].Key?
          && exists p :: IsProperty(schema, path[0].name, p) && Declares(p, path[1..], word))
      || (path != [] && path[0].Item? && Get(schema, "items").Some?
          && Declares(Get(schema, "items").value, path[1..], word))
  {
    BranchesMean(schema, "oneOf", path, word);
    BranchesMean(schema, "anyOf", path, word);
    BranchesMean(schema, "allOf", path, word);
    PropertiesMean(schema, path, word);
  }

  lemma {:induction false} BranchesMean(schema: Value, key: string, path: Path, word: string)
    ensures AnyDeclares(ItemsOf(Get(schema, key)), path, word) <==>
      exists b :: Declares(b, path, word) && IsListed(schema, key, b)
  {
    var items := ItemsOf(Get(schema, key));
    assert forall b :: IsListed(schema, key, b) <==> b in items;
    assert forall i :: 0 <= i < |items| ==> IsListed(schema, key, items[i]);
  }

  lemma {:induction false} PropertiesMean(schema: Value, path: Path, word: string)
    ensures PropertyDeclares(FieldsOf(Get(schema, "properties")), path, word) <==>
      path != [] && path[0].Key? && exists p :: IsProperty(schema, path[0].name, p) && Declares(p, path[1..], word)
  {
    var fields := FieldsOf(Get(schema, "properties"));
    assert forall name, p :: IsProperty(schema, name, p) <==> Field(name, p) in fields;
    forall i | 0 <= i < |fields| ensures IsProperty(schema, fields[i].key, fields[i].value) {
      assert fields[i] == Field(fields[i].key, fields[i].value);
    }
  }

  /** `more` holds what `words` did and what the walked part declares below
      `path`. */
  ghost predicate Adds(words: Words, more: Words, path: Path, declared: (Path, string) -> bool) {
    forall p, w :: Knows(more, p, w) <==> Knows(words, p, w) || (path <= p && declared(p[|path|..], w))
  }

  method WalkBranches(branches: seq<Value>, path: Path, words: Words) returns (more: Words)
    ensures Adds(words, more, path, (p, w) => AnyDeclares(branches, p, w))
    decreases branches, 0
  {
    more := words;
    for i := 0 to |branches|
      invariant Adds(words, more, path, (p, w) => AnyDeclares(branches[..i], p, w))
    {
      ghost var before := more;
      more := WalkSchema(branches[i], path, more);
      forall p, w ensures AnyDeclares(branches[..i + 1], p, w) <==>
                          AnyDeclares(branches[..i], p, w) || Declares(branches[i], p, w)
      {
        BranchAdded(branches, i, p, w);
      }
    }
    assert branches[..|branches|] == branches;
  }

  lemma {:induction false} BranchAdded(branches: seq<Value>, i: nat, p: Path, w: string)
    requires i < |branches|
    ensures AnyDeclares(branches[..i + 1], p, w) <==> AnyDeclares(branches[..i], p, w) || Declares(branches[i], p, w)
  {
    var now, before := branches[..i + 1], branches[..i];
    if AnyDeclares(before, p, w) {
      var j :| 0 <= j < |before| && Declares(before[j], p, w);
      assert Declares(now[j], p, w);
    }
    if AnyDeclares(now, p, w) {
      var j :| 0 <= j < |now| && Declares(now[j], p, w);
      assert j < i ==> Declares(before[j], p, w);
    }
    assert now[i] == branches[i];
  }

  method WalkProperties(fields: seq<Field>, path: Path, words: Words) returns (more: Words)
    ensures Adds(words, more, path, (p, w) => PropertyDeclares(fields, p, w))
    decreases fields, 0
  {
    more := words;
    for i := 0 to |fields|
      invariant Adds(words, more, path, (p, w) => PropertyDeclares(fields[..i], p, w))
    {
      ghost var before := more;
      var child := path + [Key(fields[i].key)];
      more := WalkSchema(fields[i].value, child, more);
      forall p, w ensures Knows(more, p, w) <==>
        Knows(words, p, w) || (path <= p && PropertyDeclares(fields[..i + 1], p[|path|..], w))
      {
        assert Knows(before, p, w) <==>
          Knows(words, p, w) || (path <= p && PropertyDeclares(fields[..i], p[|path|..], w));
        if path <= p {
          PropertyAdded(fields, i, p[|path|..], w);
          Below(path, p, Key(fields[i].key));
        } else {
          Above(path, p, Key(fields[i].key));
        }
      }
    }
    assert fields[..|fields|] == fields;
  }

  lemma {:induction false} Below(path: Path, p: Path, s: Segment)
    requires path <= p
    ensures path + [s] <= p <==> p[|path|..] != [] && p[|path|..][0] == s
    ensures path + [s] <= p ==> p[|path| + 1..] == p[|path|..][1..]
  {
  }

  lemma {:induction false} Above(path: Path, p: Path, s: Segment)
    ensures path + [s] <= p ==> path <= p
  {
    if path + [s] <= p {
      assert (path + [s])[..|path|] == path;
      assert p[..|path|] == path;
    }
  }

  lemma {:induction false} PropertyAdded(fields: seq<Field>, i: nat, p: Path, w: string)
    requires i < |fields|
    ensures PropertyDeclares(fields[..i + 1], p, w) <==>
      PropertyDeclares(fields[..i], p, w)
      || (p != [] && p[0] == Key(fields[i].key) && Declares(fields[i].value, p[1..], w))
  {
    var now, before := fields[..i + 1], fields[..i];
    if PropertyDeclares(before, p, w) {
      var j :| 0 <= j < |before| && p != [] && p[0] == Key(before[j].key) && Declares(before[j].value, p[1..], w);
      assert Declares(now[j].value, p[1..], w);
    }
    if PropertyDeclares(now, p, w) {
      var j :| 0 <= j < |now| && p != [] && p[0] == Key(now[j].key) && Declares(now[j].value, p[1..], w);
      assert j < i ==> before[j] == now[j];
    }
    assert now[i] == fields[i];
  }

  function StringsOf(items: seq<Value>): (words: set<string>)
    ensures forall w :: w in words <==> Str(w) in items
  {
    set i | 0 <= i < |items| && items[i].Str? :: items[i].chars
  }

  predicate ItemDeclares(items: Option<Value>, path: Path, word: string) {
    items.Some? && path != [] && path[0] == Item && Declares(items.value, path[1..], word)
  }

  lemma {:induction false} DeclaresParts(schema: Value, p: Path, w: string)
    ensures Declares(schema, p, w) <==>
      || (p == [] && w in StringsOf(ItemsOf(Get(schema, "enum"))))
      || AnyDeclares(ItemsOf(Get(schema, "oneOf")), p, w)
      || AnyDeclares(ItemsOf(Get(schema, "anyOf")), p, w)
      || AnyDeclares(ItemsOf(Get(schema, "allOf")), p, w)
      || PropertyDeclares(FieldsOf(Get(schema, "properties")), p, w)
      || ItemDeclares(Get(schema, "items"), p, w)
  {
  }

  method WalkItems(schema: Value, path: Path, words: Words) returns (more: Words)
    ensures Adds(words, more, path, (p, w) => ItemDeclares(Get(schema, "items"), p, w))
    decreases schema, 1
  {
    GetIsSmaller(schema, "items");
    var items := Get(schema, "items");
    more := words;
    if items.Some? {
      more := WalkSchema(items.value, path + [Item], words);
    }
    forall p, w ensures Knows(more, p, w) <==>
      Knows(words, p, w) || (path <= p && ItemDeclares(items, p[|path|..], w))
    {
      Above(path, p, Item);
      if path <= p {
        Below(path, p, Item);
      }
    }
  }

  method LearnOwn(own: set<string>, path: Path, words: Words) returns (more: Words)
    ensures Adds(words, more, path, (p, w) => p == [] && w in own)
  {
    more := words;
    if own != {} {
      more := more[path := (if path in more then more[path] else {}) + own];
    }
    forall p, w ensures Knows(more, p, w) <==> Knows(words, p, w) || (path <= p && p[|path|..] == [] && w in own) {
      assert path <= p && p[|path|..] == [] <==> p == path;
    }
  }

  method WalkKeyword(schema: Value, key: string, path: Path, words: Words) returns (more: Words)
    ensures Adds(words, more, path, (p, w) => AnyDeclares(ItemsOf(Get(schema, key)), p, w))
    decreases schema, 1
  {
    GetIsSmaller(schema, key);
    more := words;
    var branches := ItemsOf(Get(schema, key));
    if branches != [] {
      more := WalkBranches(branches, path, more);
    }
  }

  method WalkNames(schema: Value, path: Path, words: Words) returns (more: Words)
    ensures Adds(words, more, path, (p, w) => PropertyDeclares(FieldsOf(Get(schema, "properties")), p, w))
    decreases schema, 1
  {
    GetIsSmaller(schema, "properties");
    more := words;
    var fields := FieldsOf(Get(schema, "properties"));
    if fields != [] {
      more := WalkProperties(fields, path, more);
    }
  }

  /** The walk learns exactly what the schema declares. */
  method WalkSchema(schema: Value, path: Path, words: Words) returns (more: Words)
    ensures Adds(words, more, path, (p, w) => Declares(schema, p, w))
    decreases schema, 2
  {
    more := LearnOwn(StringsOf(ItemsOf(Get(schema, "enum"))), path, words);
    more := WalkKeyword(schema, "oneOf", path, more);
    more := WalkKeyword(schema, "anyOf", path, more);
    more := WalkKeyword(schema, "allOf", path, more);
    more := WalkNames(schema, path, more);
    more := WalkItems(schema, path, more);
    forall p, w ensures Knows(more, p, w) <==> Knows(words, p, w) || (path <= p && Declares(schema, p[|path|..], w)) {
      if path <= p {
        DeclaresParts(schema, p[|path|..], w);
      }
    }
  }

  class EnumIndex {
    var byTool: map<string, Words>

    constructor ()
      ensures byTool == map[]
    {
      byTool := map[];
    }

    /** Learning a schema replaces what was known of its tool. */
    method Learn(tool: string, schema: Value)
      modifies this
      ensures byTool.Keys == old(byTool.Keys) + {tool}
      ensures forall p, w :: Knows(byTool[tool], p, w) <==> Declares(schema, p, w)
      ensures forall t :: t in old(byTool) && t != tool ==> byTool[t] == old(byTool)[t]
    {
      var found := WalkSchema(schema, [], map[]);
      byTool := byTool[tool := found];
      forall p, w ensures Knows(found, p, w) <==> Declares(schema, p, w) {
        assert [] <= p && p[0..] == p;
      }
    }
  }

  // ------------------------------------------------------------------- shapes

  function CharBytes(c: char): nat {
    if c as int < 0x80 then 1 else if c as int < 0x800 then 2 else if c as int < 0x1_0000 then 3 else 4
  }

  function ByteLength(s: string): nat {
    if s == "" then 0 else CharBytes(s[0]) + ByteLength(s[1..])
  }

  function BucketOf(bytes: nat): string {
    if bytes <= 8 then "str<8"
    else if bytes <= 32 then "str<32"
    else if bytes <= 128 then "str<128"
    else if bytes <= 512 then "str<512"
    else if bytes <= 4096 then "str<4096"
    else "str>4096"
  }

  function StringBucket(s: string): string { BucketOf(ByteLength(s)) }

  function StringShape(s: string, words: Words, path: Path, o: Outside): string {
    if Knows(words, path, s) then "enum:" + s
    else if o.isUuid(s) then "uuid"
    else if o.domainOf(s).Some? then "url:" + o.domainOf(s).value
    else StringBucket(s)
  }

  function BoolText(b: bool): string { if b then "true" else "false" }

  function ArrayShape(count: nat, items: Value): Value {
    Obj([Field("array", Number(Decimal(count))), Field("items", items)])
  }

  function ShapeAt(v: Value, words: Words, path: Path, o: Outside): Value
    decreases v, 1
  {
    match v
    case Null => Str("null")
    case Bool(b) => Str("bool:" + BoolText(b))
    case Number(n) => Str("num:" + n)
    case Str(s) => Str(StringShape(s, words, path, o))
    case Arr(items) =>
      ArrayShape(|items|, if items == [] then Str("empty") else ShapeAt(items[0], words, path + [Item], o))
    case Obj(fields) => Obj(ShapeFields(fields, words, path, o))
  }

  function ShapeFields(fields: seq<Field>, words: Words, path: Path, o: Outside): (r: seq<Field>)
    ensures |r| == |fields|
    decreases fields, 0
  {
    if fields == [] then []
    else [Field(fields[0].key, ShapeAt(fields[0].value, words, path + [Key(fields[0].key)], o))]
         + ShapeFields(fields[1..], words, path, o)
  }

  /** How many bytes a character takes in UTF-8 (RFC 3629, section 3). */
  lemma {:induction false} BytesMean(c: char)
    ensures CharBytes(c) == 1 <==> 0 <= c as int <= 0x7f
    ensures CharBytes(c) == 2 <==> 0x80 <= c as int <= 0x7ff
    ensures CharBytes(c) == 3 <==> 0x800 <= c as int <= 0xffff
    ensures CharBytes(c) == 4 <==> 0x1_0000 <= c as int
  {
  }

  lemma {:induction false} LengthsAdd(a: string, b: string)
    ensures ByteLength(a + b) == ByteLength(a) + ByteLength(b)
    ensures |b| == 1 ==> ByteLength(b) == CharBytes(b[0])
  {
    if a == "" {
      assert a + b == b;
    } else {
      LengthsAdd(a[1..], b);
      assert (a + b)[1..] == a[1..] + b;
    }
  }

  const BOUNDS: seq<nat> := [8, 32, 128, 512, 4096]

  lemma BoundTexts()
    ensures Decimal(8) == "8" && Decimal(32) == "32" && Decimal(128) == "128" && Decimal(512) == "512"
    ensures Decimal(4096) == "4096"
  {
    assert Decimal(3) == "3" && Decimal(1) == "1" && Decimal(12) == "12" && Decimal(5) == "5" && Decimal(51) == "51";
    assert Decimal(4) == "4" && Decimal(40) == "40" && Decimal(409) == "409";
  }

  /** A text is in the bucket of the first bound its bytes do not exceed. */
  lemma {:induction false} BucketMeans(s: string, i: nat)
    requires i < |BOUNDS|
    ensures StringBucket(s) == "str<" + Decimal(BOUNDS[i]) <==>
      ByteLength(s) <= BOUNDS[i] && (i > 0 ==> ByteLength(s) > BOUNDS[i - 1])
    ensures StringBucket(s) == "str>" + Decimal(4096) <==> ByteLength(s) > 4096
  {
    BoundTexts();
    assert |"str<8"| == 5 && |"str<32"| == 6 && |"str<128"| == 7 && |"str<512"| == 7 && |"str<4096"| == 8;
    assert "str<128"[4] == '1' && "str<512"[4] == '5' && "str>4096"[3] == '>' && "str<4096"[3] == '<';
  }

  /** What is kept of a text: a learned word whole, then that it is a UUID, then
      the domain of an address, and of any other text only its size. */
  lemma {:induction false} TextsMean(s: string, words: Words, path: Path, o: Outside)
    ensures
      var text := StringShape(s, words, path, o);
      && (Knows(words, path, s) ==> text == "enum:" + s)
      && (!Knows(words, path, s) && o.isUuid(s) ==> text == "uuid")
      && (!Knows(words, path, s) && !o.isUuid(s) ==>
            text == match o.domainOf(s) case Some(domain) => "url:" + domain case None => StringBucket(s))
  {
  }

  // ----------------------------------------------------------- path addresses

  function DecodeKey(key: string): Option<string> {
    if key == "" then Some("")
    else if key[0] != '~' then
      (match DecodeKey(key[1..]) case Some(rest) => Some([key[0]] + rest) case None => None)
    else if |key| == 1 || key[1] !in {'0', '1'} then None
    else
      (match DecodeKey(key[2..])
       case Some(rest) => Some([if key[1] == '0' then '~' else '/'] + rest)
       case None => None)
  }

  function Segments(parts: seq<string>): Option<Path> {
    if parts == [] then Some([])
    else if parts[0] == "i" then
      (match Segments(parts[1..]) case Some(rest) => Some([Item] + rest) case None => None)
    else if parts[0] == "k" && |parts| > 1 && DecodeKey(parts[1]).Some? then
      (match Segments(parts[2..]) case Some(rest) => Some([Key(DecodeKey(parts[1]).value)] + rest) case None => None)
    else None
  }

  function PublicPath(text: string): Option<Path> {
    if text == "" then Some([])
    else if text == "[]" then Some([Item])
    else if text[0] != '/' then Some([Key(text)])
    else Segments(Split(text[1..]))
  }

  /** Text that starts with no slash is a property's own name, but for the empty
      one and the two brackets. */
  lemma {:induction false} PlainPathsMean(text: string)
    ensures text == "" ==> PublicPath(text) == Some([])
    ensures text == ['[', ']'] ==> PublicPath(text) == Some([Item])
    ensures text !in ["", "[]"] && text[0] != '/' ==> PublicPath(text) == Some([Key(text)])
  {
  }

  /** The typed form of a path, as the address syntax documents it. */
  function EncodeKey(name: string): string {
    if name == "" then ""
    else (if name[0] == '~' then "~0" else if name[0] == '/' then "~1" else [name[0]]) + EncodeKey(name[1..])
  }

  function Address(path: Path): string {
    if path == [] then ""
    else (if path[0].Item? then "/i" else "/k/" + EncodeKey(path[0].name)) + Address(path[1..])
  }

  lemma {:induction false} KeysReadBack(name: string)
    ensures DecodeKey(EncodeKey(name)) == Some(name)
    ensures '/' !in EncodeKey(name)
  {
    if name != "" {
      KeysReadBack(name[1..]);
      var rest, text := EncodeKey(name[1..]), EncodeKey(name);
      if name[0] == '~' || name[0] == '/' {
        assert text[2..] == rest;
      } else {
        assert text[1..] == rest;
      }
      assert name == [name[0]] + name[1..];
    }
  }

  lemma {:induction false} SplitPart(part: string, rest: string)
    requires '/' !in part
    ensures Split(part + "/" + rest) == [part] + Split(rest)
    ensures Split(part) == [part]
  {
    if part == "" {
      assert part + "/" + rest == "/" + rest && ("/" + rest)[1..] == rest;
    } else {
      SplitPart(part[1..], rest);
      assert (part + "/" + rest)[1..] == part[1..] + "/" + rest;
      assert part == [part[0]] + part[1..];
    }
  }

  /** A path whose address reads back. */
  ghost predicate Readable(path: Path) {
    && Address(path) != "" && Address(path)[0] == '/' && |Address(path)| > 1
    && Segments(Split(Address(path)[1..])) == Some(path)
  }

  lemma {:induction false} SegmentsItem(more: seq<string>, tail: Path)
    requires Segments(more) == Some(tail)
    ensures Segments(["i"] + more) == Some([Item] + tail)
  {
    assert (["i"] + more)[1..] == more;
  }

  lemma {:induction false} SegmentsKey(name: string, more: seq<string>, tail: Path)
    requires Segments(more) == Some(tail)
    ensures Segments(["k"] + ([EncodeKey(name)] + more)) == Some([Key(name)] + tail)
  {
    var parts := ["k"] + ([EncodeKey(name)] + more);
    KeysReadBack(name);
    assert parts[1] == EncodeKey(name) && parts[2..] == more;
  }

  lemma {:induction false} ItemText(rest: string)
    ensures ("/i" + "")[1..] == "i"
    ensures ("/i" + ("/" + rest))[1..] == "i" + "/" + rest
  {
  }

  lemma {:induction false} SplitItem(rest: string)
    ensures Split("i") == ["i"] + []
    ensures Split("i" + "/" + rest) == ["i"] + Split(rest)
  {
    SplitPart("i", rest);
  }

  lemma {:induction false} ItemReadable(tail: Path)
    requires tail == [] || Readable(tail)
    ensures Readable([Item] + tail)
  {
    var path := [Item] + tail;
    assert path[1..] == tail && Address(path) == "/i" + Address(tail);
    if tail == [] {
      ItemText("");
      SplitItem("");
      SegmentsItem([], []);
      assert path == [Item] + [];
    } else {
      var rest := Address(tail)[1..];
      assert Address(tail) == "/" + rest;
      ItemText(rest);
      SplitItem(rest);
      SegmentsItem(Split(rest), tail);
    }
  }

  lemma {:induction false} KeyText(head: string, rest: string)
    ensures ("/k/" + head)[1..] == "k" + "/" + head
    ensures ("/k/" + head + ("/" + rest))[1..] == "k" + "/" + (head + "/" + rest)
  {
  }

  lemma {:induction false} SplitKey(head: string, rest: string)
    requires '/' !in head
    ensures Split("k" + "/" + head) == ["k"] + ([head] + [])
    ensures Split("k" + "/" + (head + "/" + rest)) == ["k"] + ([head] + Split(rest))
  {
    SplitPart("k", head);
    SplitPart(head, rest);
    SplitPart("k", head + "/" + rest);
  }

  lemma {:induction false} KeyReadable(name: string, tail: Path)
    requires tail == [] || Readable(tail)
    ensures Readable([Key(name)] + tail)
  {
    var path, head := [Key(name)] + tail, EncodeKey(name);
    KeysReadBack(name);
    assert path[1..] == tail && Address(path) == "/k/" + head + Address(tail);
    if tail == [] {
      KeyText(head, "");
      SplitKey(head, "");
      SegmentsKey(name, [], []);
      assert "/k/" + head + "" == "/k/" + head && path == [Key(name)] + [];
    } else {
      var rest := Address(tail)[1..];
      assert Address(tail) == "/" + rest;
      KeyText(head, rest);
      SplitKey(head, rest);
      SegmentsKey(name, Split(rest), tail);
    }
  }

  lemma {:induction false} AddressParts(path: Path)
    requires path != []
    ensures Readable(path)
  {
    var tail := path[1..];
    assert path == [path[0]] + tail;
    if tail != [] {
      AddressParts(tail);
    }
    match path[0]
    case Item => ItemReadable(tail);
    case Key(name) => KeyReadable(name, tail);
  }

  /** Every path has an address, whatever its keys hold. */
  lemma {:induction false} EveryPathHasAnAddress(path: Path)
    ensures PublicPath(Address(path)) == Some(path)
  {
    if path != [] {
      AddressParts(path);
    }
  }
}
