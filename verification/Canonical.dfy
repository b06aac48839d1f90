/** The canonical printer whose output the contract digests
    (src/catalog_contract.rs), and why digesting text loses nothing. */
module Canonical {
  import opened Common
  import opened Json
  import opened JsonReader
  import StringOrder
  import StableSort

  // ---------------------------------------------------------------- meaning

  /** A JSON value with objects as finite maps: stored order is gone. */
  datatype Meaning =
    | MNull
    | MBool(flag: bool)
    | MNumber(text: string)
    | MStr(chars: string)
    | MArr(items: seq<Meaning>)
    | MObj(fields: map<string, Meaning>)

  function Denote(v: Value): Meaning
    decreases v, 1
  {
    match v
    case Null => MNull
    case Bool(b) => MBool(b)
    case Number(t) => MNumber(t)
    case Str(s) => MStr(s)
    case Arr(items) => MArr(DenoteItems(items))
    case Obj(fields) => MObj(DenoteFields(fields))
  }

  function DenoteItems(items: seq<Value>): (r: seq<Meaning>)
    ensures |r| == |items|
    decreases items, 0
  {
    if items == [] then [] else [Denote(items[0])] + DenoteItems(items[1..])
  }

  function DenoteFields(fields: seq<Field>): map<string, Meaning>
    decreases fields, 0
  {
    if fields == [] then map[]
    else DenoteFields(fields[1..])[fields[0].key := Denote(fields[0].value)]
  }

  // --------------------------------------------------------------- printing

  function HexDigit(n: nat): char
    requires n < 16
  {
    if n < 10 then ('0' as int + n) as char else ('a' as int + n - 10) as char
  }

  /** How `serde_json` writes one character of a string. */
  function Escape(c: char): (r: string)
    ensures r != "" && r[0] != '"'
  {
    if c == '"' then "\\\""
    else if c == '\\' then "\\\\"
    else if c == 8 as char then "\\b"
    else if c == 9 as char then "\\t"
    else if c == 10 as char then "\\n"
    else if c == 12 as char then "\\f"
    else if c == 13 as char then "\\r"
    else if c < 32 as char then "\\u00" + [HexDigit(c as int / 16)] + [HexDigit(c as int % 16)]
    else [c]
  }

  function EscapeAll(s: string): string {
    if s == "" then "" else Escape(s[0]) + EscapeAll(s[1..])
  }

  function Quote(s: string): string { "\"" + EscapeAll(s) + "\"" }

  /** Print a value in stored field order. */
  function Print(v: Value): string
    decreases v, 1
  {
    match v
    case Null => "null"
    case Bool(b) => if b then "true" else "false"
    case Number(t) => t
    case Str(s) => Quote(s)
    case Arr(items) => "[" + PrintItems(items) + "]"
    case Obj(fields) => "{" + PrintFields(fields) + "}"
  }

  function PrintItems(items: seq<Value>): string
    decreases items, 0
  {
    if items == [] then ""
    else if |items| == 1 then Print(items[0])
    else Print(items[0]) + "," + PrintItems(items[1..])
  }

  function PrintField(f: Field): string
    decreases f, 2
  {
    Quote(f.key) + ":" + Print(f.value)
  }

  function PrintFields(fields: seq<Field>): string
    decreases fields, 0
  {
    if fields == [] then ""
    else if |fields| == 1 then PrintField(fields[0])
    else PrintField(fields[0]) + "," + PrintFields(fields[1..])
  }

  // --------------------------------------------------- canonical stored form

  function KeyLe(a: Field, b: Field): bool { StringOrder.Le(a.key, b.key) }

  /** The order a `BTreeMap<&String, _>` iterates in. */
  function SortFields(fields: seq<Field>): (r: seq<Field>)
    ensures |r| == |fields|
  {
    StableSort.Sort(fields, KeyLe)
  }

  /** Every object, at every depth, with its fields in key order. */
  function Normal(v: Value): Value
    decreases v, 1
  {
    match v
    case Arr(items) => Arr(NormalItems(items))
    case Obj(fields) => Obj(SortFields(NormalFields(fields)))
    case _ => v
  }

  function NormalItems(items: seq<Value>): (r: seq<Value>)
    ensures |r| == |items|
    decreases items, 0
  {
    if items == [] then [] else [Normal(items[0])] + NormalItems(items[1..])
  }

  function NormalFields(fields: seq<Field>): (r: seq<Field>)
    ensures |r| == |fields|
    ensures forall i :: 0 <= i < |fields| ==> r[i] == Field(fields[i].key, Normal(fields[i].value))
    decreases fields, 0
  {
    if fields == [] then []
    else [Field(fields[0].key, Normal(fields[0].value))] + NormalFields(fields[1..])
  }

  /** The text `canonical` appends. */
  function CanonicalText(v: Value): string { Print(Normal(v)) }

  // -------------------------------------------------- the text reads back

  lemma {:induction false} First(p: string, r: string)
    requires p != ""
    ensures (p + r)[0] == p[0]
  {
  }

  /** A character is written as itself unless section 7 of RFC 8259 has it
      escaped, and then with the letter it has or in lower-case digits. */
  lemma {:induction false} EscapesMean(c: char)
    ensures c in ['"', '\\'] ==> Escape(c) == ['\\', c]
    ensures c !in ['"', '\\'] && c >= ' ' ==> Escape(c) == [c]
    ensures c < ' ' && c as int in {8, 9, 10, 12, 13} ==> |Escape(c)| == 2
    ensures c < ' ' && c as int !in {8, 9, 10, 12, 13} ==>
              |Escape(c)| == 6 && !exists i :: 0 <= i < 6 && 'A' <= Escape(c)[i] <= 'F'
    ensures forall r :: ReadChar(Escape(c) + r) == Some((c, r))
  {
    forall r ensures ReadChar(Escape(c) + r) == Some((c, r)) {
      EscapeReadsBack(c, r);
    }
  }

  lemma {:induction false} EscapeReadsBack(c: char, r: string)
    ensures ReadChar(Escape(c) + r) == Some((c, r))
  {
    var e := Escape(c);
    var t := e + r;
    assert t[|e|..] == r;
    assert forall i :: 0 <= i < |e| ==> t[i] == e[i];
  }

  /** An escaped string, its closing quote, and whatever follows. */
  function EscapedThen(a: string, r: string): string { EscapeAll(a) + "\"" + r }

  lemma {:induction false} EscapedThenFirst(a: string, r: string)
    ensures a == "" ==> EscapedThen(a, r) == "\"" + r
    ensures a != "" ==> EscapedThen(a, r) == Escape(a[0]) + EscapedThen(a[1..], r)
    ensures EscapedThen(a, r) != "" && (EscapedThen(a, r)[0] == '"' <==> a == "")
  {
    if a != "" {
      var first, rest := Escape(a[0]), EscapeAll(a[1..]);
      assert EscapeAll(a) == first + rest;
      assert first + rest + "\"" + r == first + (rest + "\"" + r);
      First(first, EscapedThen(a[1..], r));
    }
  }

  lemma {:induction false} CharsReadBack(a: string, r: string)
    ensures ReadChars(EscapedThen(a, r)) == Some((a, r))
  {
    EscapedThenFirst(a, r);
    if a == "" {
      assert ("\"" + r)[1..] == r;
    } else {
      EscapeReadsBack(a[0], EscapedThen(a[1..], r));
      CharsReadBack(a[1..], r);
      assert a == [a[0]] + a[1..];
    }
  }

  lemma {:induction false} QuoteReadsBack(a: string, r: string)
    ensures Starts(Quote(a) + r, "\"") && ReadChars((Quote(a) + r)[1..]) == Some((a, r))
  {
    assert Quote(a) + r == "\"" + EscapedThen(a, r);
    CharsReadBack(a, r);
  }

  lemma {:induction false} NumberSpans(t: string, r: string)
    requires Delimited(r) && forall i :: 0 <= i < |t| ==> IsNumberChar(t[i])
    ensures NumberSpan(t + r) == |t|
  {
    if t != "" {
      NumberSpans(t[1..], r);
      assert (t + r)[1..] == t[1..] + r;
    } else {
      assert t + r == r;
    }
  }

  /** The first printed character tells the kinds of value apart. */
  function Lead(v: Value): char
    requires v.Number? ==> IsNumberText(v.text)
  {
    match v
    case Null => 'n'
    case Bool(b) => if b then 't' else 'f'
    case Number(t) => t[0]
    case Str(_) => '"'
    case Arr(_) => '['
    case Obj(_) => '{'
  }

  lemma {:induction false} LeadIsFirst(v: Value, r: string)
    requires v.Number? ==> IsNumberText(v.text)
    ensures Print(v) != "" && (Print(v) + r)[0] == Lead(v)
  {
  }

  /** Printed items, the bracket that closes them, and whatever follows. */
  function ItemsThen(items: seq<Value>, r: string): string
    decreases items, 1
  {
    if items == [] then "]" + r else Print(items[0]) + AfterItem(items, r)
  }

  /** What follows the first item: the closing bracket, or a comma and the rest. */
  function AfterItem(items: seq<Value>, r: string): (t: string)
    requires items != []
    ensures t != "" && (t[0] == ']' <==> |items| == 1) && Delimited(t)
    decreases items, 0
  {
    if |items| == 1 then "]" + r else "," + ItemsThen(items[1..], r)
  }

  function FieldsThen(fields: seq<Field>, r: string): string
    decreases fields, 1
  {
    if fields == [] then "}" + r else PrintField(fields[0]) + AfterField(fields, r)
  }

  function AfterField(fields: seq<Field>, r: string): (t: string)
    requires fields != []
    ensures t != "" && (t[0] == '}' <==> |fields| == 1) && Delimited(t)
    decreases fields, 0
  {
    if |fields| == 1 then "}" + r else "," + FieldsThen(fields[1..], r)
  }

  lemma {:induction false} Rejoined(a: string, b: string, c: string, close: string, r: string)
    ensures (a + b + c) + close + r == a + (b + (c + close + r))
    ensures a + close + r == a + (close + r)
  {
  }

  lemma {:induction false} ItemsText(items: seq<Value>, r: string)
    ensures PrintItems(items) + "]" + r == ItemsThen(items, r)
  {
    if |items| > 1 {
      ItemsText(items[1..], r);
      Rejoined(Print(items[0]), ",", PrintItems(items[1..]), "]", r);
    } else if items != [] {
      Rejoined(Print(items[0]), "", "", "]", r);
    } else {
      assert "" + "]" + r == "]" + r;
    }
  }

  lemma {:induction false} FieldsText(fields: seq<Field>, r: string)
    ensures PrintFields(fields) + "}" + r == FieldsThen(fields, r)
  {
    if |fields| > 1 {
      FieldsText(fields[1..], r);
      Rejoined(PrintField(fields[0]), ",", PrintFields(fields[1..]), "}", r);
    } else if fields != [] {
      Rejoined(PrintField(fields[0]), "", "", "}", r);
    } else {
      assert "" + "}" + r == "}" + r;
    }
  }

  lemma {:induction false} ListText(open: string, body: string, close: string, r: string)
    ensures (open + body + close) + r == open + (body + close + r)
  {
  }

  lemma {:induction false} WordReadsBack(word: string, v: Value, r: string)
    requires word != ""
    ensures ReadWord(word + r, word, v) == Some((v, r))
  {
    assert (word + r)[..|word|] == word && (word + r)[|word|..] == r;
  }

  lemma {:induction false} NumberReadsBack(n: string, r: string)
    requires IsNumberText(n) && Delimited(r)
    ensures ReadNumber(n + r) == Some((Number(n), r))
  {
    NumberSpans(n, r);
    assert (n + r)[..|n|] == n && (n + r)[|n|..] == r;
  }

  /** A printed value is read back, whatever follows it: nothing needs to mark
      where a value ends, and nothing about it is lost. */
  lemma {:induction false} ReadsBack(v: Value, r: string)
    requires WellFormed(v) && Delimited(r)
    ensures ReadValue(Print(v) + r) == Some((v, r))
    decreases v, 1
  {
    LeadIsFirst(v, r);
    match v {
      case Null => WordReadsBack("null", v, r);
      case Bool(_) => WordReadsBack(Print(v), v, r);
      case Number(n) => NumberReadsBack(n, r);
      case Str(chars) => QuoteReadsBack(chars, r);
      case Arr(items) => ArrayReadsBack(items, r);
      case Obj(fields) => ObjectReadsBack(fields, r);
    }
  }

  lemma {:induction false} ArrayReadsBack(items: seq<Value>, r: string)
    requires WellFormed(Arr(items))
    ensures ReadArray((Print(Arr(items)) + r)[1..]) == Some((Arr(items), r))
    decreases items, 1
  {
    ListText("[", PrintItems(items), "]", r);
    ItemsText(items, r);
    assert (Print(Arr(items)) + r)[1..] == ItemsThen(items, r);
    if items != [] {
      LeadIsFirst(items[0], AfterItem(items, r));
      ItemsReadBack(items, r);
    } else {
      assert ("]" + r)[1..] == r;
    }
  }

  lemma {:induction false} ItemsReadBack(items: seq<Value>, r: string)
    requires items != [] && WellFormed(Arr(items))
    ensures ReadItems(ItemsThen(items, r)) == Some((items, r))
    decreases items, 0
  {
    var after := AfterItem(items, r);
    ReadsBack(items[0], after);
    if |items| > 1 {
      ItemsReadBack(items[1..], r);
      assert after[1..] == ItemsThen(items[1..], r);
      assert items == [items[0]] + items[1..];
    } else {
      assert after[1..] == r && items == [items[0]];
    }
  }

  lemma {:induction false} FieldText(f: Field, r: string)
    ensures PrintField(f) + r == Quote(f.key) + (":" + (Print(f.value) + r))
  {
  }

  lemma {:induction false} ObjectReadsBack(fields: seq<Field>, r: string)
    requires WellFormed(Obj(fields))
    ensures ReadObject((Print(Obj(fields)) + r)[1..]) == Some((Obj(fields), r))
    decreases fields, 3
  {
    ListText("{", PrintFields(fields), "}", r);
    FieldsText(fields, r);
    assert (Print(Obj(fields)) + r)[1..] == FieldsThen(fields, r);
    if fields != [] {
      assert PrintField(fields[0])[0] == '"';
      First(PrintField(fields[0]), AfterField(fields, r));
      FieldsReadBack(fields, r);
    } else {
      assert ("}" + r)[1..] == r;
    }
  }

  lemma {:induction false} FieldsReadBack(fields: seq<Field>, r: string)
    requires fields != [] && forall i :: 0 <= i < |fields| ==> WellFormed(fields[i].value)
    ensures ReadFields(FieldsThen(fields, r)) == Some((fields, r))
    decreases fields, 2
  {
    var after := AfterField(fields, r);
    FieldReadsBack(fields[0], after);
    if |fields| > 1 {
      FieldsReadBack(fields[1..], r);
      assert after[1..] == FieldsThen(fields[1..], r);
      assert fields == [fields[0]] + fields[1..];
    } else {
      assert after[1..] == r && fields == [fields[0]];
    }
  }

  lemma {:induction false} FieldReadsBack(f: Field, r: string)
    requires WellFormed(f.value) && Delimited(r)
    ensures ReadField(PrintField(f) + r) == Some((f, r))
    decreases f, 2
  {
    FieldText(f, r);
    var rest := ":" + (Print(f.value) + r);
    QuoteReadsBack(f.key, rest);
    ReadsBack(f.value, r);
    assert rest[1..] == Print(f.value) + r;
  }

  /** Two printed values that start the same text are the same value, and what
      follows them is the same. */
  lemma {:induction false} PrintUnique(v: Value, w: Value, r: string, s: string)
    requires WellFormed(v) && WellFormed(w)
    requires Delimited(r) && Delimited(s)
    requires Print(v) + r == Print(w) + s
    ensures v == w && r == s
  {
    ReadsBack(v, r);
    ReadsBack(w, s);
  }

  // ------------------------------------------- normal form and meaning agree

  lemma KeyOrder()
    ensures StableSort.IsTotalPreorder(KeyLe)
  {
    forall a, b ensures KeyLe(a, b) || KeyLe(b, a) { StringOrder.Total(a.key, b.key); }
    forall a, b, c | KeyLe(a, b) && KeyLe(b, c) ensures KeyLe(a, c) {
      StringOrder.Transitive(a.key, b.key, c.key);
    }
  }

  lemma {:induction false} InsertDistinct(s: seq<Field>, x: Field)
    requires DistinctKeys(s) && x.key !in Keys(s)
    ensures DistinctKeys(StableSort.Insert(s, x, KeyLe))
  {
    if s != [] && !KeyLe(s[|s| - 1], x) {
      var front, last := s[..|s| - 1], s[|s| - 1];
      assert Keys(front) <= Keys(s) by {
        assert forall i :: 0 <= i < |front| ==> front[i] == s[i];
      }
      InsertDistinct(front, x);
      StableSort.InsertMultiset(front, x, KeyLe);
      var r := StableSort.Insert(front, x, KeyLe);
      forall i | 0 <= i < |r| ensures r[i].key != last.key {
        assert r[i] in multiset(r);
        assert r[i] == x || r[i] in front;
      }
    }
  }

  lemma {:induction false} SortDistinct(s: seq<Field>)
    requires DistinctKeys(s)
    ensures DistinctKeys(SortFields(s))
  {
    if s != [] {
      var front, last := s[..|s| - 1], s[|s| - 1];
      SortDistinct(front);
      var r := SortFields(front);
      forall i | 0 <= i < |r| ensures r[i].key != last.key {
        StableSort.SortMember(front, KeyLe, r[i]);
      }
      InsertDistinct(r, last);
    }
  }

  /** A key-sorted list without repeated keys is determined by its members. */
  lemma {:induction false} SortedDetermined(a: seq<Field>, b: seq<Field>)
    requires StableSort.IsSorted(a, KeyLe) && StableSort.IsSorted(b, KeyLe)
    requires DistinctKeys(a) && DistinctKeys(b)
    requires forall f :: f in a <==> f in b
    ensures a == b
  {
    forall x, y | x in a && y in a && KeyLe(x, y) && KeyLe(y, x) ensures x == y {
      StringOrder.Antisymmetric(x.key, y.key);
    }
    StableSort.SortedDetermined(a, b, KeyLe);
  }

  lemma {:induction false} DenoteLookup(fields: seq<Field>, key: string)
    ensures key in DenoteFields(fields) <==> Lookup(fields, key).Some?
    ensures key in DenoteFields(fields) ==>
              DenoteFields(fields)[key] == Denote(Lookup(fields, key).value)
  {
    if fields != [] && fields[0].key != key {
      DenoteLookup(fields[1..], key);
    }
  }

  lemma {:induction false} DenoteItemsAt(items: seq<Value>, i: nat)
    requires i < |items|
    ensures DenoteItems(items)[i] == Denote(items[i])
  {
    if i > 0 {
      DenoteItemsAt(items[1..], i - 1);
    }
  }

  lemma {:induction false} NormalItemsAt(items: seq<Value>, i: nat)
    requires i < |items|
    ensures NormalItems(items)[i] == Normal(items[i])
  {
    if i > 0 {
      NormalItemsAt(items[1..], i - 1);
    }
  }

  lemma {:induction false} NormalFieldsDistinct(fields: seq<Field>)
    requires DistinctKeys(fields)
    ensures DistinctKeys(NormalFields(fields))
    ensures DistinctKeys(SortFields(NormalFields(fields)))
  {
    SortDistinct(NormalFields(fields));
  }

  /** Looking a key up after normalising finds the normalised value. */
  lemma {:induction false} NormalLookup(fields: seq<Field>, i: nat)
    requires DistinctKeys(fields) && i < |fields|
    ensures Lookup(SortFields(NormalFields(fields)), fields[i].key) == Some(Normal(fields[i].value))
  {
    var nf := NormalFields(fields);
    var sorted := SortFields(nf);
    NormalFieldsDistinct(fields);
    StableSort.SortMember(nf, KeyLe, nf[i]);
    var j :| 0 <= j < |sorted| && sorted[j] == nf[i];
    LookupAt(sorted, j);
  }

  /** Normalising keeps a document well formed and keeps what it means. */
  lemma {:induction false} NormalKeepsMeaning(v: Value)
    requires WellFormed(v)
    ensures WellFormed(Normal(v)) && Denote(Normal(v)) == Denote(v)
  {
    match v {
      case Arr(items) =>
        forall i | 0 <= i < |items|
          ensures WellFormed(NormalItems(items)[i])
          ensures DenoteItems(NormalItems(items))[i] == DenoteItems(items)[i]
        {
          NormalItemsAt(items, i);
          NormalKeepsMeaning(items[i]);
          DenoteItemsAt(items, i);
          DenoteItemsAt(NormalItems(items), i);
        }
        assert DenoteItems(NormalItems(items)) == DenoteItems(items);
      case Obj(fields) =>
        NormalFieldsKeepMeaning(fields, v);
      case _ =>
    }
  }

  lemma {:induction false} NormalFieldsKeepMeaning(fields: seq<Field>, v: Value)
    requires v == Obj(fields) && WellFormed(v)
    ensures WellFormed(Normal(v)) && Denote(Normal(v)) == Denote(v)
    decreases v, 0
  {
    var nf := NormalFields(fields);
    var sorted := SortFields(nf);
    NormalFieldsDistinct(fields);
    forall i | 0 <= i < |sorted| ensures WellFormed(sorted[i].value) {
      StableSort.SortMember(nf, KeyLe, sorted[i]);
      var j :| 0 <= j < |nf| && nf[j] == sorted[i];
      NormalKeepsMeaning(fields[j].value);
    }
    forall key
      ensures key in DenoteFields(sorted) <==> key in DenoteFields(fields)
      ensures key in DenoteFields(fields) ==> DenoteFields(sorted)[key] == DenoteFields(fields)[key]
    {
      DenoteLookup(fields, key);
      DenoteLookup(sorted, key);
      LookupFound(fields, key);
      LookupFound(sorted, key);
      if key in Keys(fields) {
        var i :| 0 <= i < |fields| && fields[i].key == key;
        LookupAt(fields, i);
        NormalLookup(fields, i);
        NormalKeepsMeaning(fields[i].value);
      } else if key in Keys(sorted) {
        var i :| 0 <= i < |sorted| && sorted[i].key == key;
        StableSort.SortMember(nf, KeyLe, sorted[i]);
      }
    }
    assert DenoteFields(sorted) == DenoteFields(fields);
  }

  // ----------------------------------------------------------------- key order

  predicate KeyBefore(a: string, b: string) { a != b && StringOrder.Le(a, b) }

  predicate FieldsInOrder(fields: seq<Field>) {
    forall i, j :: 0 <= i < j < |fields| ==> KeyBefore(fields[i].key, fields[j].key)
  }

  /** Every object, at every depth, lists its keys in ascending order. */
  predicate InKeyOrder(v: Value)
    decreases v, 1
  {
    match v
    case Obj(fields) => FieldsInOrder(fields) && forall i :: 0 <= i < |fields| ==> InKeyOrder(fields[i].value)
    case Arr(items) => forall i :: 0 <= i < |items| ==> InKeyOrder(items[i])
    case _ => true
  }

  lemma {:induction false} SortedIsKept<T(!new)>(s: seq<T>, le: (T, T) -> bool)
    requires StableSort.IsSorted(s, le)
    ensures StableSort.Sort(s, le) == s
  {
    if s != [] {
      var front, last := s[..|s| - 1], s[|s| - 1];
      SortedIsKept(front, le);
      assert s == front + [last];
      assert front != [] ==> le(front[|front| - 1], last);
    }
  }

  lemma {:induction false} OrderedIsNormal(v: Value)
    requires InKeyOrder(v)
    ensures Normal(v) == v
    decreases v
  {
    match v
    case Obj(fields) =>
      var normal := NormalFields(fields);
      forall i | 0 <= i < |fields| ensures normal[i] == fields[i] {
        OrderedIsNormal(fields[i].value);
      }
      assert normal == fields;
      SortedIsKept(fields, KeyLe);
    case Arr(items) =>
      forall i | 0 <= i < |items| ensures NormalItems(items)[i] == items[i] {
        OrderedIsNormal(items[i]);
        NormalItemsAt(items, i);
      }
      assert NormalItems(items) == items;
    case _ =>
  }

  lemma {:induction false} SortedInOrder(fields: seq<Field>)
    requires DistinctKeys(fields)
    ensures FieldsInOrder(SortFields(fields))
  {
    KeyOrder();
    StableSort.SortSorted(fields, KeyLe);
    SortDistinct(fields);
  }

  lemma {:induction false} NormalInOrder(v: Value)
    requires WellFormed(v)
    ensures InKeyOrder(Normal(v))
    decreases v
  {
    match v
    case Obj(fields) =>
      var normal := NormalFields(fields);
      var sorted := SortFields(normal);
      SortedInOrder(normal);
      forall i | 0 <= i < |sorted| ensures InKeyOrder(sorted[i].value) {
        StableSort.SortMember(normal, KeyLe, sorted[i]);
        var j :| 0 <= j < |normal| && normal[j] == sorted[i];
        NormalInOrder(fields[j].value);
      }
    case Arr(items) =>
      forall i | 0 <= i < |items| ensures InKeyOrder(NormalItems(items)[i]) {
        NormalItemsAt(items, i);
        NormalInOrder(items[i]);
      }
    case _ =>
  }

  /** The canonical text, read by the grammar alone, is one value that means the
      same and lists every object's keys in ascending order. */
  lemma {:induction false} CanonicalReadsBack(v: Value, r: string) returns (w: Value)
    requires WellFormed(v) && Delimited(r)
    ensures ReadValue(CanonicalText(v) + r) == Some((w, r))
    ensures InKeyOrder(w) && Denote(w) == Denote(v)
  {
    w := Normal(v);
    NormalKeepsMeaning(v);
    NormalInOrder(v);
    ReadsBack(w, r);
  }

  /** Two documents that mean the same have the same normal form. */
  lemma {:induction false} MeaningFixesNormal(v: Value, w: Value)
    requires WellFormed(v) && WellFormed(w)
    requires Denote(v) == Denote(w)
    ensures Normal(v) == Normal(w)
  {
    match v {
      case Arr(items) =>
        forall i | 0 <= i < |items| ensures NormalItems(items)[i] == NormalItems(w.items)[i] {
          DenoteItemsAt(items, i);
          DenoteItemsAt(w.items, i);
          NormalItemsAt(items, i);
          NormalItemsAt(w.items, i);
          MeaningFixesNormal(items[i], w.items[i]);
        }
        assert NormalItems(items) == NormalItems(w.items);
      case Obj(fields) =>
        var a, b := NormalFields(fields), NormalFields(w.fields);
        forall i | 0 <= i < |a| ensures a[i] in b {
          SameFieldIn(fields, w.fields, i);
          var j :| 0 <= j < |w.fields| && w.fields[j].key == fields[i].key
            && Denote(w.fields[j].value) == Denote(fields[i].value);
          MeaningFixesNormal(fields[i].value, w.fields[j].value);
          assert b[j] == a[i];
        }
        forall j | 0 <= j < |b| ensures b[j] in a {
          SameFieldIn(w.fields, fields, j);
          var i :| 0 <= i < |fields| && fields[i].key == w.fields[j].key
            && Denote(fields[i].value) == Denote(w.fields[j].value);
          MeaningFixesNormal(fields[i].value, w.fields[j].value);
          assert a[i] == b[j];
        }
        NormalFieldsDistinct(fields);
        NormalFieldsDistinct(w.fields);
        KeyOrder();
        StableSort.SortSorted(a, KeyLe);
        StableSort.SortSorted(b, KeyLe);
        forall f ensures f in SortFields(a) <==> f in SortFields(b) {
          StableSort.SortMember(a, KeyLe, f);
          StableSort.SortMember(b, KeyLe, f);
        }
        SortedDetermined(SortFields(a), SortFields(b));
      case _ =>
    }
  }

  lemma {:induction false} SameFieldIn(a: seq<Field>, b: seq<Field>, i: nat)
    requires DistinctKeys(a) && DistinctKeys(b) && i < |a|
    requires DenoteFields(a) == DenoteFields(b)
    ensures exists j :: 0 <= j < |b| && b[j].key == a[i].key
                        && Denote(b[j].value) == Denote(a[i].value)
  {
    LookupAt(a, i);
    DenoteLookup(a, a[i].key);
    DenoteLookup(b, a[i].key);
    LookupFound(b, a[i].key);
    var j :| 0 <= j < |b| && b[j] == Field(a[i].key, Lookup(b, a[i].key).value);
    assert b[j].key == a[i].key && Denote(b[j].value) == Denote(a[i].value);
  }

  /** The digested text loses nothing and adds nothing: two documents print
      alike exactly when they are the same value with objects as finite maps,
      whatever order their fields are stored in. */
  lemma {:induction false} CanonicalIsExact(v: Value, w: Value)
    requires WellFormed(v) && WellFormed(w)
    ensures CanonicalText(v) == CanonicalText(w) <==> Denote(v) == Denote(w)
  {
    NormalKeepsMeaning(v);
    NormalKeepsMeaning(w);
    if CanonicalText(v) == CanonicalText(w) {
      assert Print(Normal(v)) + "" == Print(Normal(w)) + "";
      PrintUnique(Normal(v), Normal(w), "", "");
    }
    if Denote(v) == Denote(w) {
      MeaningFixesNormal(v, w);
    }
  }

  // ------------------------------------------------------ the appending loop

  lemma {:induction false} InsertNormal(s: seq<Field>, x: Field)
    ensures StableSort.Insert(NormalFields(s), Field(x.key, Normal(x.value)), KeyLe)
         == NormalFields(StableSort.Insert(s, x, KeyLe))
  {
    var n := |s| - 1;
    if s != [] {
      assert NormalFields(s)[..n] == NormalFields(s[..n]);
      InsertNormal(s[..n], x);
    }
  }

  /** Sorting looks at keys only, so it does not matter which comes first. */
  lemma {:induction false} SortNormal(s: seq<Field>)
    ensures SortFields(NormalFields(s)) == NormalFields(SortFields(s))
  {
    if s != [] {
      var n := |s| - 1;
      assert NormalFields(s)[..n] == NormalFields(s[..n]);
      SortNormal(s[..n]);
      InsertNormal(SortFields(s[..n]), s[n]);
    }
  }

  lemma {:induction false} Grouped(a: string, b: string, c: string, d: string)
    ensures a + "," + (b + c + d) == (a + "," + b) + c + d
  {
  }

  lemma {:induction false} PrintFieldsSnoc(a: seq<Field>, x: Field)
    ensures PrintFields(a + [x]) == (if a == [] then "" else PrintFields(a) + ",") + PrintField(x)
  {
    if a == [] {
      assert a + [x] == [x] && "" + PrintField(x) == PrintField(x);
    } else {
      var all, rest := a + [x], a[1..];
      PrintFieldsSnoc(rest, x);
      assert all[0] == a[0] && all[1..] == rest + [x];
      if rest != [] {
        Grouped(PrintField(a[0]), PrintFields(rest), ",", PrintField(x));
      } else {
        assert PrintField(a[0]) + "," + ("" + PrintField(x)) == PrintField(a[0]) + "," + PrintField(x);
      }
    }
  }

  lemma {:induction false} PrintItemsSnoc(a: seq<Value>, x: Value)
    ensures PrintItems(a + [x]) == (if a == [] then "" else PrintItems(a) + ",") + Print(x)
  {
    if a == [] {
      assert a + [x] == [x] && "" + Print(x) == Print(x);
    } else {
      var all, rest := a + [x], a[1..];
      PrintItemsSnoc(rest, x);
      assert all[0] == a[0] && all[1..] == rest + [x];
      if rest != [] {
        Grouped(Print(a[0]), PrintItems(rest), ",", Print(x));
      } else {
        assert Print(a[0]) + "," + ("" + Print(x)) == Print(a[0]) + "," + Print(x);
      }
    }
  }

  /** `canonical`: append to `out`, looping over fields in key order. */
  method AppendCanonical(value: Value, out: string) returns (text: string)
    ensures text == out + CanonicalText(value)
    decreases value, 2
  {
    match value {
      case Obj(fields) =>
        var sorted := SortFields(fields);
        forall i | 0 <= i < |sorted| ensures sorted[i] in fields {
          StableSort.SortMember(fields, KeyLe, sorted[i]);
        }
        SortNormal(fields);
        text := AppendFields(sorted, out + "{", value);
        text := text + "}";
        Regroup(out, "{", PrintFields(NormalFields(sorted)), "}");
      case Arr(items) =>
        text := AppendItems(items, out + "[", value);
        text := text + "]";
        Regroup(out, "[", PrintItems(NormalItems(items)), "]");
      case _ =>
        text := out + Print(value);
    }
  }

  lemma {:induction false} Regroup(a: string, b: string, c: string, d: string)
    ensures a + b + c + d == a + (b + c + d)
  {
  }

  lemma {:induction false} FieldStep(out: string, f: Field)
    ensures out + Quote(f.key) + ":" + Print(f.value) == out + PrintField(f)
  {
  }

  method AppendField(f: Field, out: string, ghost whole: Value) returns (text: string)
    requires whole.Obj? && f in whole.fields
    ensures text == out + PrintField(Field(f.key, Normal(f.value)))
    decreases whole, 0
  {
    text := out + Quote(f.key);
    text := text + ":";
    text := AppendCanonical(f.value, text);
    FieldStep(out, Field(f.key, Normal(f.value)));
  }

  lemma {:induction false} ListStep(out: string, sep: string, item: string)
    ensures out + sep + item == out + (sep + item)
  {
  }

  method AppendFields(sorted: seq<Field>, out: string, ghost whole: Value) returns (text: string)
    requires whole.Obj? && forall f :: f in sorted ==> f in whole.fields
    ensures text == out + PrintFields(NormalFields(sorted))
    decreases whole, 1
  {
    ghost var normal := NormalFields(sorted);
    text := out;
    for index := 0 to |sorted|
      invariant text == out + PrintFields(normal[..index])
    {
      if index > 0 {
        text := text + ",";
      }
      assert text == out + FieldsSoFar(normal, index);
      text := AppendField(sorted[index], text, whole);
      NextField(out, normal, index);
    }
    assert normal[..|sorted|] == normal;
  }

  /** What is printed before the field at `index`. */
  ghost function FieldsSoFar(fields: seq<Field>, index: nat): string
    requires index <= |fields|
  {
    if index == 0 then "" else PrintFields(fields[..index]) + ","
  }

  lemma {:induction false} NextField(out: string, fields: seq<Field>, index: nat)
    requires index < |fields|
    ensures out + FieldsSoFar(fields, index) + PrintField(fields[index]) == out + PrintFields(fields[..index + 1])
  {
    var before, sep := fields[..index], FieldsSoFar(fields, index);
    assert fields[..index + 1] == before + [fields[index]];
    assert sep == if before == [] then "" else PrintFields(before) + ",";
    PrintFieldsSnoc(before, fields[index]);
    ListStep(out, sep, PrintField(fields[index]));
  }

  method AppendItems(items: seq<Value>, out: string, ghost whole: Value) returns (text: string)
    requires whole == Arr(items)
    ensures text == out + PrintItems(NormalItems(items))
    decreases whole, 0
  {
    ghost var normal := NormalItems(items);
    text := out;
    for index := 0 to |items|
      invariant text == out + PrintItems(normal[..index])
    {
      ghost var sep := if index == 0 then "" else PrintItems(normal[..index]) + ",";
      if index > 0 {
        text := text + ",";
      }
      assert text == out + sep;
      text := AppendCanonical(items[index], text);
      NormalItemsAt(items, index);
      ListStep(out, sep, Print(normal[index]));
      PrintItemsSnoc(normal[..index], normal[index]);
      assert normal[..index + 1] == normal[..index] + [normal[index]];
    }
    assert normal[..|items|] == normal;
  }
}
