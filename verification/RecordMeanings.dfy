/** What a stored record keeps, told without the recorder's own functions. */
module RecordMeanings {
  import opened Common
  import opened Integers
  import opened Json
  import opened Privacy
  import opened Shape
  import opened Records

  // ------------------------------------------------------------------- shapes

  /** No text is a canonical one, and no field looks like a count. */
  predicate IsRaw(v: Value, o: Outside)
    decreases v
  {
    match v
    case Str(s) => !IsCanonicalShape(s, o)
    case Arr(items) => items != [] ==> IsRaw(items[0], o)
    case Obj(fields) =>
      forall i :: 0 <= i < |fields| ==> !CountsUnder(fields[i]) && IsRaw(fields[i].value, o)
    case _ => true
  }

  /** Nothing is known of texts but their sizes. */
  ghost predicate Unread(words: Words, o: Outside) {
    forall s :: !o.isUuid(s) && o.domainOf(s).None? && forall path :: !Knows(words, path, s)
  }

  /** Raw arguments are stored as the shape they have when no text is read. */
  lemma {:induction false} RawIsShaped(v: Value, words: Words, path: Path, o: Outside)
    requires IsRaw(v, o) && Unread(words, o)
    ensures SanitizeShape(v, o) == ShapeAt(v, words, path, o)
    decreases v, 1
  {
    match v
    case Arr(items) =>
      if items != [] {
        RawIsShaped(items[0], words, path + [Item], o);
      }
    case Obj(fields) => RawFieldsAreShaped(fields, words, path, o);
    case _ =>
  }

  lemma {:induction false} RawFieldsAreShaped(fields: seq<Field>, words: Words, path: Path, o: Outside)
    requires IsRaw(Obj(fields), o) && Unread(words, o)
    ensures SanitizeFields(fields, o) == ShapeFields(fields, words, path, o)
    decreases fields, 0
  {
    if fields != [] {
      RawIsShaped(fields[0].value, words, path + [Key(fields[0].key)], o);
      RawFieldsAreShaped(fields[1..], words, path, o);
    }
  }

  /** Texts, flags and null can always be stored, a number that parses as itself,
      an array or object of machine size when what is kept of it can. */
  lemma {:induction false} StorableMeans(v: Value, o: Outside)
    ensures v.Null? || v.Bool? || v.Str? ==> Storable(v, o)
    ensures v.Number? ==> (Storable(v, o) <==> o.parseNumber(v.text) == Some(v.text))
    ensures v.Arr? ==>
      (Storable(v, o) <==> |v.items| < 0x1_0000_0000_0000_0000 && (v.items == [] || Storable(v.items[0], o)))
    ensures v.Obj? ==>
      (Storable(v, o) <==>
         |v.fields| < 0x1_0000_0000_0000_0000 && forall i :: 0 <= i < |v.fields| ==> Storable(v.fields[i].value, o))
  {
    if v.Obj? {
      StorableAll(v.fields, o);
    }
  }

  lemma {:induction false} StorableAll(fields: seq<Field>, o: Outside)
    ensures StorableFields(fields, o) <==> forall i :: 0 <= i < |fields| ==> Storable(fields[i].value, o)
  {
    if fields != [] {
      var rest := fields[1..];
      StorableAll(rest, o);
      assert forall i :: 0 <= i < |rest| ==> rest[i] == fields[i + 1];
      assert forall i :: 0 < i < |fields| ==> fields[i] == rest[i - 1];
    }
  }

  /** A shape on disk is read back as it was written, when what was read in its
      texts can be written: words that are labels and domains that are hosts. */
  lemma {:induction false} ShapesStay(v: Value, words: Words, path: Path, o: Outside)
    requires Storable(v, o)
    requires forall p, s :: Knows(words, p, s) ==> ValidTool(s)
    requires forall s :: o.domainOf(s).Some? ==> IsHost(o.domainOf(s).value)
    ensures Clean(ShapeAt(v, words, path, o), o)
    decreases v, 1
  {
    match v
    case Null =>
    case Bool(b) => assert "bool:" + BoolText(b) == if b then "bool:true" else "bool:false";
    case Str(s) => TextStays(s, words, path, o);
    case Number(n) => PrefixOf("num:", n);
    case Arr(items) =>
      if items != [] {
        ShapesStay(items[0], words, path + [Item], o);
      }
      ArrayShapeClean(|items|, ShapeAt(v, words, path, o).fields[1].value, o);
    case Obj(fields) => FieldShapesStay(fields, words, path, o);
  }

  lemma {:induction false} TextStays(s: string, words: Words, path: Path, o: Outside)
    requires Knows(words, path, s) ==> ValidTool(s)
    requires o.domainOf(s).Some? ==> IsHost(o.domainOf(s).value)
    ensures IsCanonicalShape(StringShape(s, words, path, o), o)
  {
    MarkersMean(StringShape(s, words, path, o), o);
    BucketIsMarker(s);
  }

  lemma {:induction false} FieldShapesStay(fields: seq<Field>, words: Words, path: Path, o: Outside)
    requires StorableFields(fields, o)
    requires forall p, s :: Knows(words, p, s) ==> ValidTool(s)
    requires forall s :: o.domainOf(s).Some? ==> IsHost(o.domainOf(s).value)
    ensures CleanFields(ShapeFields(fields, words, path, o), o)
    decreases fields, 0
  {
    if fields != [] {
      ShapesStay(fields[0].value, words, path + [Key(fields[0].key)], o);
      FieldShapesStay(fields[1..], words, path, o);
      assert ShapeFields(fields, words, path, o)[1..] == ShapeFields(fields[1..], words, path, o);
    }
  }

  /** A field keeps its key, and under the two counting keys its size. */
  lemma {:induction false} FieldsMean(fields: seq<Field>, o: Outside, i: nat)
    requires i < |fields|
    ensures
      var f, r := fields[i], SanitizeFields(fields, o)[i];
      && r.key == f.key
      && r.value == if f.key in {"array", "object"} && IsSize(f.value) then f.value else SanitizeShape(f.value, o)
  {
    if i > 0 {
      FieldsMean(fields[1..], o, i - 1);
      assert SanitizeFields(fields, o)[i] == SanitizeFields(fields[1..], o)[i - 1];
    }
  }

  // -------------------------------------------------------------------- errors

  /** A number the machine can hold counts as a size. */
  predicate IsSize(v: Value) {
    v.Number? && IsNatText(v.text) && DigitsValue(v.text) < 0x1_0000_0000_0000_0000
  }

  /** Of an error code an identifier is kept, of any other text and of a container
      the size; a number, a flag or null is kept whole. */
  lemma {:induction false} CodesMean(code: Value)
    ensures code.Str? && ValidIdentifier(code.chars) ==> SafeCode(code) == code
    ensures code.Str? && !ValidIdentifier(code.chars) ==>
              SafeCode(code) == if code.chars in BUCKETS then code else Str(StringBucket(code.chars))
    ensures code.Arr? ==> SafeCode(code) == Obj([Field("array", Number(Decimal(|code.items|)))])
    ensures code.Obj? ==>
              if exists f :: code.fields == [f] && f.key in {"array", "object"} && IsSize(f.value) then
                SafeCode(code) == code
              else
                SafeCode(code) == Obj([Field("object", Number(Decimal(|code.fields|)))])
    ensures code.Null? || code.Bool? || code.Number? ==> SafeCode(code) == code
  {
    if code.Obj? && |code.fields| == 1 {
      var f := code.fields[0];
      assert code.fields == [f] && code.fields[1..] == [];
      assert Lookup(code.fields, "array") == if f.key == "array" then Some(f.value) else None;
      assert Lookup(code.fields, "object") == if f.key == "object" then Some(f.value) else None;
    }
  }

  /** An error keeps whether it may be retried and a well-formed template id, and
      says of what else it had no more than the size. */
  lemma {:induction false} ErrorsMean(e: ErrorInfo)
    ensures
      var safe := SanitizedError(e);
      && safe.retryable == e.retryable
      && (safe.code.Some? <==> e.code.Some?) && (safe.template.Some? <==> e.template.Some?)
      && (e.code.Some? ==> safe.code.value == SafeCode(e.code.value))
      && (safe.templateId == if e.templateId.Some? && IsHexText(e.templateId.value, 16) then e.templateId else None)
      && ReducedTo(e.layer, safe.layer) && ReducedTo(e.kind, safe.kind)
  {
  }

  predicate ReducedTo(text: Option<string>, size: Option<string>) {
    match text
    case None => size == None
    case Some(s) => size == Some(if s in BUCKETS then s else StringBucket(s))
  }

  /** So many digits or letters from a to f by their ASCII codes. */
  predicate IsHexText(s: string, n: nat) {
    |s| == n && forall i :: 0 <= i < n ==> 48 <= s[i] as int <= 57 || 97 <= s[i] as int <= 102
  }

  // -------------------------------------------------------------------- labels

  /** A session is kept when it is a digest already, in lower case, and is
      otherwise replaced by its digest. */
  lemma {:induction false} SessionsMean(s: string, labels: Labels)
    ensures IsOpaque(s) <==> exists digits :: s == "session:" + digits && IsHexText(LowerAll(digits), 64)
    ensures !IsOpaque(s) ==> OpaqueSession(s, labels) == "session:" + labels.digest(s)
    ensures IsOpaque(s) ==> OpaqueSession(s, labels) == s[..8] + LowerAll(s[8..])
  {
    if IsOpaque(s) {
      assert s == "session:" + s[8..];
      assert forall i :: 0 <= i < 64 ==> s[8..][i] == s[8 + i];
      assert forall i :: 0 <= i < 8 ==> s[i] == "session:"[i];
      assert LowerAll(s) == s[..8] + LowerAll(s[8..]);
    }
    if digits :| s == "session:" + digits && IsHexText(LowerAll(digits), 64) {
      assert s[..8] == "session:";
      forall i | 8 <= i < 72 ensures IsHex(s[i]) {
        assert s[i] == digits[i - 8] && LowerAll(digits)[i - 8] == Lower(s[i]);
      }
    }
  }

  /** A server is labelled by one segment and a method by segments between
      slashes; neither is longer than 128 characters. */
  lemma {:induction false} MethodsMean(s: string)
    ensures ValidServer(s) <==> ValidTool(s)
    ensures ValidMethod(s) <==> 1 <= |s| <= 128 && s[0] != '/' && IsSegmented(s)
  {
    if s != "" {
      SegmentsMean(s);
      FirstSegment(s);
      assert ValidSegment(Split(s)[0]) <==> Split(s)[0] != "" && AllLabelChars(Split(s)[0]);
    }
  }

  /** A label character, or a slash with something other than a slash after it. */
  predicate GoesOn(s: string, i: nat)
    requires i < |s|
  {
    if s[i] == '/' then i + 1 < |s| && s[i + 1] != '/' else IsLabelChar(s[i])
  }

  predicate IsSegmented(s: string) { forall i :: 0 <= i < |s| ==> GoesOn(s, i) }

  lemma {:induction false} FirstSegment(s: string)
    ensures Split(s)[0] == "" <==> s == "" || s[0] == '/'
  {
  }

  lemma {:induction false} SegmentsMean(s: string)
    ensures AllLabelChars(Split(s)[0]) && (forall i :: 1 <= i < |Split(s)| ==> ValidSegment(Split(s)[i]))
       <==> IsSegmented(s)
  {
    if s != "" {
      var rest := s[1..];
      SegmentsMean(rest);
      FirstSegment(rest);
      TailSegmented(s);
      var all, more := Split(s), Split(rest);
      if s[0] == '/' {
        assert all == [""] + more;
        assert forall i :: 0 <= i < |more| ==> more[i] == all[i + 1];
      } else {
        assert all == [[s[0]] + more[0]] + more[1..];
        assert forall i :: 1 <= i < |more| ==> more[i] == all[i];
        OneMoreLabel(s[0], more[0]);
      }
    }
  }

  lemma {:induction false} OneMoreLabel(c: char, part: string)
    ensures AllLabelChars([c] + part) <==> IsLabelChar(c) && AllLabelChars(part)
  {
    var all := [c] + part;
    assert all[0] == c && forall i :: 0 <= i < |part| ==> part[i] == all[i + 1];
  }

  lemma {:induction false} TailSegmented(s: string)
    requires s != ""
    ensures IsSegmented(s) <==> GoesOn(s, 0) && IsSegmented(s[1..])
  {
    var rest := s[1..];
    assert forall i :: 0 <= i < |rest| ==> (GoesOn(rest, i) <==> GoesOn(s, i + 1));
    if GoesOn(s, 0) && IsSegmented(rest) {
      forall i | 0 <= i < |s| ensures GoesOn(s, i) {
        assert i > 0 ==> GoesOn(rest, i - 1);
      }
    }
  }
}
