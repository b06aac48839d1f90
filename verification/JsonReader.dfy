/** A reader of compact JSON, written from the grammar of RFC 8259. */
module JsonReader {
  import opened Common
  import opened Json

  /** Text that cannot continue a number: the end, or a structural character. */
  predicate Delimited(r: string) {
    r == "" || r[0] in [',', ']', '}']
  }

  predicate Starts(t: string, p: string) { |p| <= |t| && t[..|p|] == p }

  // ------------------------------------------------------- strings (section 7)

  function HexValue(c: char): Option<nat> {
    if '0' <= c <= '9' then Some(c as int - '0' as int)
    else if 'a' <= c <= 'f' then Some(c as int - 'a' as int + 10)
    else if 'A' <= c <= 'F' then Some(c as int - 'A' as int + 10)
    else None
  }

  /** The character four hexadecimal digits stand for; half of a surrogate pair
      stands for none. */
  function ReadHex(t: string): Option<char>
    requires |t| == 4
  {
    match (HexValue(t[0]), HexValue(t[1]), HexValue(t[2]), HexValue(t[3]))
    case (Some(a), Some(b), Some(c), Some(d)) =>
      var n := 4096 * a + 256 * b + 16 * c + d;
      if n < 0xd800 || 0xe000 <= n < 0x1_0000 then Some(n as char) else None
    case _ => None
  }

  /** The character a string goes on with, and the text after it. */
  function ReadChar(t: string): (r: Option<(char, string)>)
    requires t != ""
    ensures r.Some? ==> |r.value.1| < |t|
  {
    if t[0] < 32 as char || t[0] == '"' then None
    else if t[0] != '\\' then Some((t[0], t[1..]))
    else if |t| < 2 then None
    else
      match t[1]
      case 'b' => Some((8 as char, t[2..]))
      case 't' => Some((9 as char, t[2..]))
      case 'n' => Some((10 as char, t[2..]))
      case 'f' => Some((12 as char, t[2..]))
      case 'r' => Some((13 as char, t[2..]))
      case 'u' =>
        var c := if |t| < 6 then None else ReadHex(t[2..6]);
        if c.None? then None else Some((c.value, t[6..]))
      case c => if c in ['"', '\\', '/'] then Some((c, t[2..])) else None
  }

  /** The characters up to the closing quotation mark, and the text after it. */
  function ReadChars(t: string): (r: Option<(string, string)>)
    ensures r.Some? ==> |r.value.1| < |t|
    decreases |t|
  {
    if t == "" then None
    else if t[0] == '"' then Some(("", t[1..]))
    else
      match ReadChar(t)
      case None => None
      case Some((c, rest)) =>
        var more := ReadChars(rest);
        if more.None? then None else Some(([c] + more.value.0, more.value.1))
  }

  // ---------------------------------------------- values (sections 3 to 6)

  /** How many characters a number goes on for. */
  function NumberSpan(t: string): (n: nat)
    ensures n <= |t|
  {
    if t == "" || !IsNumberChar(t[0]) then 0 else 1 + NumberSpan(t[1..])
  }

  function ReadWord(t: string, word: string, v: Value): (r: Option<(Value, string)>)
    requires word != ""
    ensures r.Some? ==> |r.value.1| < |t|
  {
    if Starts(t, word) then Some((v, t[|word|..])) else None
  }

  function ReadNumber(t: string): (r: Option<(Value, string)>)
    ensures r.Some? ==> |r.value.1| < |t|
  {
    var n := NumberSpan(t);
    if IsNumberText(t[..n]) then Some((Number(t[..n]), t[n..])) else None
  }

  /** The value a text starts with, and the text after it. */
  function ReadValue(t: string): (r: Option<(Value, string)>)
    ensures r.Some? ==> |r.value.1| < |t|
    decreases |t|, 0
  {
    if t == "" then None
    else
      match t[0]
      case 'n' => ReadWord(t, "null", Null)
      case 't' => ReadWord(t, "true", Bool(true))
      case 'f' => ReadWord(t, "false", Bool(false))
      case '"' =>
        var chars := ReadChars(t[1..]);
        if chars.None? then None else Some((Str(chars.value.0), chars.value.1))
      case '[' => ReadArray(t[1..])
      case '{' => ReadObject(t[1..])
      case _ => ReadNumber(t)
  }

  /** An array from after its opening bracket. */
  function ReadArray(t: string): (r: Option<(Value, string)>)
    ensures r.Some? ==> |r.value.1| < |t|
    decreases |t|, 2
  {
    if Starts(t, "]") then Some((Arr([]), t[1..]))
    else
      var items := ReadItems(t);
      if items.None? then None else Some((Arr(items.value.0), items.value.1))
  }

  function ReadObject(t: string): (r: Option<(Value, string)>)
    ensures r.Some? ==> |r.value.1| < |t|
    decreases |t|, 3
  {
    if Starts(t, "}") then Some((Obj([]), t[1..]))
    else
      var fields := ReadFields(t);
      if fields.None? then None else Some((Obj(fields.value.0), fields.value.1))
  }

  /** One item at least, each followed by a comma or the closing bracket. */
  function ReadItems(t: string): (r: Option<(seq<Value>, string)>)
    ensures r.Some? ==> |r.value.1| < |t|
    decreases |t|, 1
  {
    match ReadValue(t)
    case None => None
    case Some((item, rest)) =>
      if Starts(rest, "]") then Some(([item], rest[1..]))
      else if Starts(rest, ",") then
        var more := ReadItems(rest[1..]);
        if more.None? then None else Some(([item] + more.value.0, more.value.1))
      else None
  }

  /** A name, a colon and a value. */
  function ReadField(t: string): (r: Option<(Field, string)>)
    ensures r.Some? ==> |r.value.1| < |t|
    decreases |t|, 1
  {
    if !Starts(t, "\"") then None
    else
      match ReadChars(t[1..])
      case None => None
      case Some((key, rest)) =>
        var value := if Starts(rest, ":") then ReadValue(rest[1..]) else None;
        if value.None? then None else Some((Field(key, value.value.0), value.value.1))
  }

  function ReadFields(t: string): (r: Option<(seq<Field>, string)>)
    ensures r.Some? ==> |r.value.1| < |t|
    decreases |t|, 2
  {
    match ReadField(t)
    case None => None
    case Some((field, rest)) =>
      if Starts(rest, "}") then Some(([field], rest[1..]))
      else if Starts(rest, ",") then
        var more := ReadFields(rest[1..]);
        if more.None? then None else Some(([field] + more.value.0, more.value.1))
      else None
  }
}
