/** JSON values as `serde_json::Value` holds them: an object is a list of
    fields in stored order, and a number is the text it prints as. */
module Json {
  import opened Common
  import opened Integers

  datatype Value =
    | Null
    | Bool(flag: bool)
    | Number(text: string)
    | Str(chars: string)
    | Arr(items: seq<Value>)
    | Obj(fields: seq<Field>)

  datatype Field = Field(key: string, value: Value)

  /** The characters a printed number is made of. */
  predicate IsNumberChar(c: char) {
    '0' <= c <= '9' || c in ['-', '+', '.', 'e', 'E']
  }

  predicate IsNumberText(t: string) {
    && t != ""
    && ('0' <= t[0] <= '9' || t[0] == '-')
    && forall i :: 0 <= i < |t| ==> IsNumberChar(t[i])
  }

  ghost predicate DistinctKeys(fields: seq<Field>) {
    forall i, j :: 0 <= i < j < |fields| ==> fields[i].key != fields[j].key
  }

  /** What every parsed document satisfies: printable numbers, no repeated key. */
  ghost predicate WellFormed(v: Value)
    decreases v, 1
  {
    match v
    case Null | Bool(_) | Str(_) => true
    case Number(t) => IsNumberText(t)
    case Arr(items) => forall i :: 0 <= i < |items| ==> WellFormed(items[i])
    case Obj(fields) =>
      && DistinctKeys(fields)
      && forall i :: 0 <= i < |fields| ==> WellFormed(fields[i].value)
  }

  /** `Map::get`: the value stored under `key`. */
  function Lookup(fields: seq<Field>, key: string): Option<Value> {
    if fields == [] then None
    else if fields[0].key == key then Some(fields[0].value)
    else Lookup(fields[1..], key)
  }

  /** `Value::get` with a string index: only an object has members. */
  function Get(v: Value, key: string): Option<Value> {
    if v.Obj? then Lookup(v.fields, key) else None
  }

  function AsStr(v: Option<Value>): Option<string> {
    if v.Some? && v.value.Str? then Some(v.value.chars) else None
  }

  function AsU64(v: Option<Value>): Option<nat> {
    if v.Some? && v.value.Number? && IsNatText(v.value.text) && DigitsValue(v.value.text) < 0x1_0000_0000_0000_0000
    then Some(DigitsValue(v.value.text))
    else None
  }

  function Negated(n: int): int { -n }

  function AsI64(v: Option<Value>): Option<int> {
    if v.None? || !v.value.Number? then None
    else
      var t := v.value.text;
      if IsNatText(t) && DigitsValue(t) <= 0x7fff_ffff_ffff_ffff then Some(DigitsValue(t))
      else if t != "" && t[0] == '-' && IsNatText(t[1..]) && 0 < DigitsValue(t[1..]) <= 0x8000_0000_0000_0000
      then Some(Negated(DigitsValue(t[1..])))
      else None
  }

  function Keys(fields: seq<Field>): set<string> {
    set i | 0 <= i < |fields| :: fields[i].key
  }

  lemma {:induction false} LookupFound(fields: seq<Field>, key: string)
    ensures Lookup(fields, key).Some? <==> key in Keys(fields)
    ensures Lookup(fields, key).Some? ==> Field(key, Lookup(fields, key).value) in fields
  {
    if fields != [] && fields[0].key != key {
      LookupFound(fields[1..], key);
      assert fields == [fields[0]] + fields[1..];
      if key in Keys(fields) {
        var i :| 0 <= i < |fields| && fields[i].key == key;
        assert fields[1..][i - 1].key == key;
      }
    } else if fields != [] {
      assert fields[0] == Field(key, fields[0].value);
    }
  }

  lemma {:induction false} LookupAt(fields: seq<Field>, i: nat)
    requires i < |fields| && DistinctKeys(fields)
    ensures Lookup(fields, fields[i].key) == Some(fields[i].value)
  {
    if i > 0 {
      LookupAt(fields[1..], i - 1);
    }
  }

  predicate IsFraction(t: string) { t == "" || (t[0] == '.' && |t| > 1 && IsDigits(t[1..])) }

  predicate IsExponent(t: string) {
    || t == ""
    || (t[0] in ['e', 'E'] && |t| > 1
        && (if t[1] in ['+', '-'] then |t| > 2 && IsDigits(t[2..]) else IsDigits(t[1..])))
  }

  /** A number as section 6 of RFC 8259 writes it. */
  ghost predicate IsJsonNumber(t: string) {
    exists minus, whole, fraction, exponent :: t == minus + whole + fraction + exponent
      && minus in ["", "-"] && IsNatText(whole) && IsFraction(fraction) && IsExponent(exponent)
  }

  ghost predicate AllNumberChars(t: string) { forall i :: 0 <= i < |t| ==> IsNumberChar(t[i]) }

  lemma {:induction false} TailChars(t: string, k: nat)
    requires k <= |t| && AllNumberChars(t[..k]) && IsDigits(t[k..])
    ensures AllNumberChars(t)
  {
    forall i | 0 <= i < |t| ensures IsNumberChar(t[i]) {
      if i < k {
        assert t[..k][i] == t[i];
      } else {
        assert t[k..][i - k] == t[i];
      }
    }
  }

  lemma {:induction false} JoinedChars(a: string, b: string)
    requires AllNumberChars(a) && AllNumberChars(b)
    ensures AllNumberChars(a + b)
  {
  }

  lemma {:induction false} FractionChars(t: string)
    requires IsFraction(t)
    ensures AllNumberChars(t)
  {
    if t != "" {
      TailChars(t, 1);
    }
  }

  lemma {:induction false} ExponentChars(t: string)
    requires IsExponent(t)
    ensures AllNumberChars(t)
  {
    if t != "" {
      TailChars(t, if t[1] in ['+', '-'] then 2 else 1);
    }
  }

  /** No number is left out. */
  lemma {:induction false} EveryNumberIsOne(t: string)
    requires IsJsonNumber(t)
    ensures IsNumberText(t)
  {
    var minus, whole, fraction, exponent :| t == minus + whole + fraction + exponent
      && minus in ["", "-"] && IsNatText(whole) && IsFraction(fraction) && IsExponent(exponent);
    FractionChars(fraction);
    ExponentChars(exponent);
    JoinedChars(minus, whole);
    JoinedChars(minus + whole, fraction);
    JoinedChars(minus + whole + fraction, exponent);
    assert t[0] == (minus + whole)[0];
  }
}
