/** JSON Pointers (RFC 6901, sections 3 to 5) and the numbers in them: what a
    pointer's text means, and where it leads. */
module Pointers {
  import opened Common
  import opened Json
  import opened Integers
  import opened Constraints

  // --------------------------------------------------------------- array indices

  lemma {:induction false} TextIsDecimal(t: string)
    requires IsNatText(t)
    ensures Decimal(DigitsValue(t)) == t
  {
    if |t| == 1 {
      assert t[..0] == "";
      assert t == [t[0]];
    } else {
      var front := t[..|t| - 1];
      assert front[0] == t[0];
      TextIsDecimal(front);
      FrontIsPositive(front);
      assert t == front + [t[|t| - 1]];
    }
  }

  lemma {:induction false} FrontIsPositive(t: string)
    requires t != "" && IsDigits(t) && t[0] != '0'
    ensures DigitsValue(t) > 0
  {
    if |t| > 1 {
      FrontIsPositive(t[..|t| - 1]);
    } else {
      assert t[..0] == "";
    }
  }

  lemma {:induction false} DigitsAre(t: string)
    ensures Digits(t) == if IsDigits(t) then Some(DigitsValue(t)) else None
  {
    if t != "" {
      DigitsAre(t[..|t| - 1]);
      assert IsDigits(t) <==> IsDigits(t[..|t| - 1]) && '0' <= t[|t| - 1] <= '9';
    }
  }

  /** A token is an array index when it is a number as numbers are printed. */
  lemma {:induction false} IndexMeans(token: string, n: nat)
    ensures Index(token) == Some(n) <==> token == Decimal(n)
  {
    DigitsAre(token);
    DecimalReadsBack(n);
    if Index(token) == Some(n) {
      TextIsDecimal(token);
    }
  }

  lemma {:induction false} NatTextMeans(t: string, n: nat)
    ensures IsNatText(t) && DigitsValue(t) == n <==> t == Decimal(n)
  {
    DecimalReadsBack(n);
    if IsNatText(t) {
      TextIsDecimal(t);
    }
  }

  /** A number is a 64-bit one when its text is that of a number in range. */
  lemma {:induction false} UnsignedMeans(t: string, n: nat)
    ensures AsU64(Some(Number(t))) == Some(n) <==> t == Decimal(n) && n <= 0xffff_ffff_ffff_ffff
  {
    NatTextMeans(t, n);
  }

  lemma {:induction false} SignedMeans(t: string, n: nat)
    ensures AsI64(Some(Number(t))) == Some(n) <==> t == Decimal(n) && n <= 0x7fff_ffff_ffff_ffff
  {
    NatTextMeans(t, n);
  }

  lemma {:induction false} MinusText(digits: string)
    ensures AsI64(Some(Number("-" + digits))) ==
      if IsNatText(digits) && 0 < DigitsValue(digits) <= 0x8000_0000_0000_0000
      then Some(Negated(DigitsValue(digits))) else None
  {
    var t := "-" + digits;
    assert t[0] == '-' && t[1..] == digits;
  }

  lemma {:induction false} PlainIsNotNegative(t: string)
    requires t == "" || t[0] != '-'
    ensures AsI64(Some(Number(t))).Some? ==> AsI64(Some(Number(t))).value >= 0
  {
  }

  lemma {:induction false} NegativeMeans(t: string, n: nat)
    requires n > 0
    ensures
      var read := AsI64(Some(Number(t)));
      read.Some? && read.value + n == 0 <==> t == "-" + Decimal(n) && n <= 0x8000_0000_0000_0000
  {
    if t == "" || t[0] != '-' {
      PlainIsNotNegative(t);
      assert ("-" + Decimal(n))[0] == '-';
    } else {
      var digits := t[1..];
      assert t == "-" + digits;
      MinusText(digits);
      NatTextMeans(digits, n);
      assert t == "-" + Decimal(n) <==> digits == Decimal(n) by {
        assert ("-" + Decimal(n))[1..] == Decimal(n);
      }
    }
  }

  // ---------------------------------------------------------------------- tokens

  /** A token as a pointer writes it. */
  function EscapeToken(t: string): string {
    if t == "" then ""
    else (if t[0] == '~' then "~0" else if t[0] == '/' then "~1" else [t[0]]) + EscapeToken(t[1..])
  }

  /** With the slashes put back. */
  function HalfEscaped(t: string): string {
    if t == "" then "" else (if t[0] == '~' then "~0" else [t[0]]) + HalfEscaped(t[1..])
  }

  lemma {:induction false} ReplacePlain(c: char, rest: string, a: char, b: char, d: char)
    requires c != a
    ensures Replace([c] + rest, a, b, d) == [c] + Replace(rest, a, b, d)
  {
    assert ([c] + rest)[1..] == rest;
  }

  lemma {:induction false} ReplacePair(b: char, d: char, rest: string)
    ensures Replace(['~', b] + rest, '~', b, d) == [d] + Replace(rest, '~', b, d)
  {
    assert (['~', b] + rest)[2..] == rest;
  }

  lemma {:induction false} ReplaceOther(x: char, rest: string, b: char, d: char)
    requires x != b && x != '~'
    ensures Replace(['~', x] + rest, '~', b, d) == ['~', x] + Replace(rest, '~', b, d)
  {
    var all := ['~', x] + rest;
    assert all[1..] == [x] + rest;
    ReplacePlain(x, rest, '~', b, d);
    assert ['~'] + ([x] + Replace(rest, '~', b, d)) == ['~', x] + Replace(rest, '~', b, d);
  }

  lemma {:induction false} SlashesBack(t: string)
    ensures Replace(EscapeToken(t), '~', '1', '/') == HalfEscaped(t)
  {
    if t != "" {
      var rest := EscapeToken(t[1..]);
      SlashesBack(t[1..]);
      if t[0] == '~' {
        assert EscapeToken(t) == ['~', '0'] + rest;
        ReplaceOther('0', rest, '1', '/');
      } else if t[0] == '/' {
        assert EscapeToken(t) == ['~', '1'] + rest;
        ReplacePair('1', '/', rest);
      } else {
        ReplacePlain(t[0], rest, '~', '1', '/');
      }
    }
  }

  lemma {:induction false} TildesBack(t: string)
    ensures Replace(HalfEscaped(t), '~', '0', '~') == t
  {
    if t != "" {
      var rest := HalfEscaped(t[1..]);
      TildesBack(t[1..]);
      assert t == [t[0]] + t[1..];
      if t[0] == '~' {
        assert HalfEscaped(t) == ['~', '0'] + rest;
        ReplacePair('0', '~', rest);
      } else {
        ReplacePlain(t[0], rest, '~', '0', '~');
      }
    }
  }

  function PointerText(tokens: seq<string>): string {
    if tokens == [] then "" else "/" + EscapeToken(tokens[0]) + PointerText(tokens[1..])
  }

  function EscapedAll(tokens: seq<string>): seq<string> {
    if tokens == [] then [] else [EscapeToken(tokens[0])] + EscapedAll(tokens[1..])
  }

  lemma {:induction false} NoSlash(t: string)
    ensures forall i :: 0 <= i < |EscapeToken(t)| ==> EscapeToken(t)[i] != '/'
  {
    if t != "" {
      NoSlash(t[1..]);
    }
  }

  lemma {:induction false} SplitAfter(a: string, rest: string)
    requires forall i :: 0 <= i < |a| ==> a[i] != '/'
    requires rest == "" || rest[0] == '/'
    ensures Split(a + rest) == [a] + Split(rest)[1..]
  {
    if a == "" {
      assert a + rest == rest;
    } else {
      SplitAfter(a[1..], rest);
      assert (a + rest)[1..] == a[1..] + rest;
      assert a == [a[0]] + a[1..];
    }
  }

  lemma {:induction false} SplitPointer(tokens: seq<string>)
    ensures Split(PointerText(tokens)) == [""] + EscapedAll(tokens)
  {
    if tokens != [] {
      var first, rest := EscapeToken(tokens[0]), PointerText(tokens[1..]);
      SplitPointer(tokens[1..]);
      NoSlash(tokens[0]);
      SplitAfter(first, rest);
      var text := PointerText(tokens);
      assert text[0] == '/' && text[1..] == first + rest;
      assert ([""] + EscapedAll(tokens[1..]))[1..] == EscapedAll(tokens[1..]);
    }
  }

  lemma {:induction false} UnescapeEscaped(tokens: seq<string>)
    ensures UnescapeAll(EscapedAll(tokens)) == tokens
  {
    if tokens != [] {
      UnescapeEscaped(tokens[1..]);
      SlashesBack(tokens[0]);
      TildesBack(tokens[0]);
      assert EscapedAll(tokens)[1..] == EscapedAll(tokens[1..]);
      assert tokens == [tokens[0]] + tokens[1..];
    }
  }

  /** Every path of tokens has a text, and the text is read back as that path. */
  lemma {:induction false} PointersReadBack(tokens: seq<string>)
    ensures Tokens(PointerText(tokens)) == Some(tokens)
  {
    if tokens != [] {
      SplitPointer(tokens);
      UnescapeEscaped(tokens);
      assert Split(PointerText(tokens))[1..] == EscapedAll(tokens);
      assert PointerText(tokens)[0] == '/';
    }
  }

  /** Only text that starts with a slash, or none at all, is a pointer. */
  lemma {:induction false} PointersStart(text: string)
    ensures Tokens(text).Some? <==> text == "" || text[0] == '/'
  {
  }

  // --------------------------------------------------------------- where it leads

  /** `u` lies under `v` at the end of the tokens: a key names a field, a printed
      number an element. */
  ghost predicate Leads(v: Value, tokens: seq<string>, u: Value)
    decreases tokens
  {
    if tokens == [] then v == u
    else
      || (v.Obj? && exists i :: 0 <= i < |v.fields| && v.fields[i].key == tokens[0]
                                && Leads(v.fields[i].value, tokens[1..], u))
      || (v.Arr? && exists i :: 0 <= i < |v.items| && tokens[0] == Decimal(i) && Leads(v.items[i], tokens[1..], u))
  }

  lemma {:induction false} ResolveMeans(v: Value, tokens: seq<string>, u: Value)
    requires WellFormed(v)
    ensures Resolve(v, tokens) == Some(u) <==> Leads(v, tokens, u)
    decreases tokens
  {
    if tokens != [] {
      match v
      case Obj(fields) => ResolveField(fields, tokens, u);
      case Arr(items) => ResolveItem(items, tokens, u);
      case _ =>
    }
  }

  lemma {:induction false} ResolveField(fields: seq<Field>, tokens: seq<string>, u: Value)
    requires WellFormed(Obj(fields)) && tokens != []
    ensures Resolve(Obj(fields), tokens) == Some(u) <==> Leads(Obj(fields), tokens, u)
    decreases tokens, 0
  {
    LookupFound(fields, tokens[0]);
    if tokens[0] in Keys(fields) {
      var i :| 0 <= i < |fields| && fields[i].key == tokens[0];
      LookupAt(fields, i);
      ResolveMeans(fields[i].value, tokens[1..], u);
      assert forall j :: 0 <= j < |fields| && fields[j].key == tokens[0] ==> j == i;
    }
  }

  lemma {:induction false} ResolveItem(items: seq<Value>, tokens: seq<string>, u: Value)
    requires WellFormed(Arr(items)) && tokens != []
    ensures Resolve(Arr(items), tokens) == Some(u) <==> Leads(Arr(items), tokens, u)
    decreases tokens, 0
  {
    forall i: nat ensures Index(tokens[0]) == Some(i) <==> tokens[0] == Decimal(i) {
      IndexMeans(tokens[0], i);
    }
    var index := Index(tokens[0]);
    if index.Some? && index.value < |items| {
      ResolveMeans(items[index.value], tokens[1..], u);
    }
  }

  /** A reference leads from the start of the document to the end of its tokens. */
  lemma {:induction false} LocalMeans(root: Value, tokens: seq<string>, u: Value)
    requires WellFormed(root)
    ensures Local(root, "#" + PointerText(tokens)) == Some(u) <==> Leads(root, tokens, u)
  {
    PointersReadBack(tokens);
    assert ("#" + PointerText(tokens))[1..] == PointerText(tokens);
    ResolveMeans(root, tokens, u);
  }
}
