/** What a call record may keep (src/record.rs): shapes in canonical form and
    labels of known syntax. */
module Records {
  import opened Common
  import opened Integers
  import opened Json
  import opened Privacy
  import opened Shape

  // ------------------------------------------------------------------- shapes

  predicate HasPrefix(s: string, prefix: string) { |prefix| <= |s| && s[..|prefix|] == prefix }

  const BUCKETS: set<string> := {"str<8", "str<32", "str<128", "str<512", "str<4096", "str>4096"}

  predicate IsMarker(s: string) {
    s in {"null", "bool:true", "bool:false", "uuid", "empty"} || s in BUCKETS
  }

  predicate IsDomain(s: string) {
    s != "" && |s| <= 253 && forall i :: 0 <= i < |s| ==> IsAlpha(s[i]) || IsDigit(s[i]) || s[i] in {'.', '-'}
  }

  predicate IsCanonicalShape(s: string, o: Outside) {
    || IsMarker(s)
    || (if HasPrefix(s, "num:") then o.parseNumber(s[4..]).Some?
        else if HasPrefix(s, "url:") then IsDomain(s[4..])
        else HasPrefix(s, "enum:") && ValidTool(s[5..]))
  }

  predicate IsCount(v: Value) { AsU64(Some(v)).Some? }

  predicate CountsUnder(f: Field) { f.key in {"array", "object"} && IsCount(f.value) }

  function SanitizeText(s: string, o: Outside): string { if IsCanonicalShape(s, o) then s else StringBucket(s) }

  function SanitizeShape(v: Value, o: Outside): Value
    decreases v, 1
  {
    match v
    case Str(s) => Str(SanitizeText(s, o))
    case Null => Str("null")
    case Bool(b) => Str("bool:" + BoolText(b))
    case Number(n) => Str("num:" + n)
    case Arr(items) => ArrayShape(|items|, if items == [] then Str("empty") else SanitizeShape(items[0], o))
    case Obj(fields) => Obj(SanitizeFields(fields, o))
  }

  function SanitizeFields(fields: seq<Field>, o: Outside): (r: seq<Field>)
    ensures |r| == |fields|
    decreases fields, 0
  {
    if fields == [] then []
    else [if CountsUnder(fields[0]) then fields[0] else Field(fields[0].key, SanitizeShape(fields[0].value, o))]
         + SanitizeFields(fields[1..], o)
  }

  /** Nothing but canonical markers, and counts under the two counting keys. */
  predicate Clean(v: Value, o: Outside)
    decreases v, 1
  {
    match v
    case Str(s) => IsCanonicalShape(s, o)
    case Obj(fields) => CleanFields(fields, o)
    case _ => false
  }

  predicate CleanFields(fields: seq<Field>, o: Outside)
    decreases fields, 0
  {
    fields == [] || ((CountsUnder(fields[0]) || Clean(fields[0].value, o)) && CleanFields(fields[1..], o))
  }

  /** A value as the recorder meets it: its numbers parse as themselves, and
      its arrays have machine-sized lengths. */
  predicate Storable(v: Value, o: Outside)
    decreases v, 1
  {
    match v
    case Number(n) => o.parseNumber(n) == Some(n)
    case Arr(items) => |items| < 0x1_0000_0000_0000_0000 && (items == [] || Storable(items[0], o))
    case Obj(fields) => |fields| < 0x1_0000_0000_0000_0000 && StorableFields(fields, o)
    case _ => true
  }

  predicate StorableFields(fields: seq<Field>, o: Outside)
    decreases fields, 0
  {
    fields == [] || (Storable(fields[0].value, o) && StorableFields(fields[1..], o))
  }

  lemma {:induction false} BucketIsMarker(s: string)
    ensures StringBucket(s) in BUCKETS
  {
  }

  lemma {:induction false} PrefixOf(prefix: string, rest: string)
    ensures HasPrefix(prefix + rest, prefix) && (prefix + rest)[|prefix|..] == rest
  {
  }

  lemma {:induction false} CountIsCount(n: nat)
    requires n < 0x1_0000_0000_0000_0000
    ensures IsCount(Number(Decimal(n)))
  {
    DecimalReadsBack(n);
  }

  lemma {:induction false} ArrayShapeClean(n: nat, items: Value, o: Outside)
    requires n < 0x1_0000_0000_0000_0000 && Clean(items, o)
    ensures Clean(ArrayShape(n, items), o)
  {
    CountIsCount(n);
    var count, rest := Field("array", Number(Decimal(n))), [Field("items", items)];
    var fields := [count] + rest;
    assert ArrayShape(n, items) == Obj(fields);
    assert rest[1..] == [] && CleanFields(rest, o);
    assert fields[1..] == rest && CountsUnder(count);
  }

  /** A sanitised shape is clean. */
  lemma {:induction false} SanitizedIsClean(v: Value, o: Outside)
    requires Storable(v, o)
    ensures Clean(SanitizeShape(v, o), o)
    decreases v, 1
  {
    match v
    case Null =>
    case Bool(b) => assert "bool:" + BoolText(b) == if b then "bool:true" else "bool:false";
    case Str(s) => BucketIsMarker(s);
    case Number(n) => PrefixOf("num:", n);
    case Arr(items) =>
      if items != [] {
        SanitizedIsClean(items[0], o);
      }
      ArrayShapeClean(|items|, SanitizeShape(v, o).fields[1].value, o);
    case Obj(fields) => SanitizedFieldsAreClean(fields, o);
  }

  lemma {:induction false} SanitizedFieldsAreClean(fields: seq<Field>, o: Outside)
    requires StorableFields(fields, o)
    ensures CleanFields(SanitizeFields(fields, o), o)
    decreases fields, 0
  {
    if fields != [] {
      SanitizedIsClean(fields[0].value, o);
      SanitizedFieldsAreClean(fields[1..], o);
      assert SanitizeFields(fields, o)[1..] == SanitizeFields(fields[1..], o);
    }
  }

  lemma {:induction false} CleanIsFixed(v: Value, o: Outside)
    requires Clean(v, o)
    ensures SanitizeShape(v, o) == v
    decreases v, 1
  {
    if v.Obj? {
      CleanFieldsAreFixed(v.fields, o);
    }
  }

  lemma {:induction false} CleanFieldsAreFixed(fields: seq<Field>, o: Outside)
    requires CleanFields(fields, o)
    ensures SanitizeFields(fields, o) == fields
    decreases fields, 0
  {
    if fields != [] {
      if !CountsUnder(fields[0]) {
        CleanIsFixed(fields[0].value, o);
      }
      CleanFieldsAreFixed(fields[1..], o);
      assert fields == [fields[0]] + fields[1..];
    }
  }

  /** Sanitising twice is sanitising once, and it leaves alone exactly what is
      clean already. */
  lemma {:induction false} SanitizeIsProjection(v: Value, o: Outside)
    requires Storable(v, o)
    ensures SanitizeShape(SanitizeShape(v, o), o) == SanitizeShape(v, o)
    ensures SanitizeShape(v, o) == v <==> Clean(v, o)
  {
    SanitizedIsClean(v, o);
    CleanIsFixed(SanitizeShape(v, o), o);
    if Clean(v, o) {
      CleanIsFixed(v, o);
    }
  }

  /** The texts a stored shape may hold. */
  lemma {:induction false} MarkersMean(s: string, o: Outside)
    ensures IsCanonicalShape(s, o) <==>
      || s in ["null", "bool:true", "bool:false", "uuid", "empty"]
      || s in ["str<8", "str<32", "str<128", "str<512", "str<4096", "str>4096"]
      || (exists text :: s == "num:" + text && o.parseNumber(text).Some?)
      || (exists host :: s == "url:" + host && IsHost(host))
      || (exists word :: s == "enum:" + word && ValidTool(word))
  {
    if |s| >= 4 {
      assert HasPrefix(s, "num:") ==> s == "num:" + s[4..];
      assert HasPrefix(s, "url:") ==> s == "url:" + s[4..];
    }
    if |s| >= 5 {
      assert HasPrefix(s, "enum:") ==> s == "enum:" + s[5..];
    }
    forall rest ensures HasPrefix("num:" + rest, "num:") && ("num:" + rest)[4..] == rest {
    }
    forall rest ensures HasPrefix("url:" + rest, "url:") && ("url:" + rest)[4..] == rest {
    }
    forall rest ensures HasPrefix("enum:" + rest, "enum:") && ("enum:" + rest)[5..] == rest {
    }
    if HasPrefix(s, "url:") {
      HostMeans(s[4..]);
    }
  }

  /** Up to 253 letters, digits, hyphens and dots by their ASCII codes. */
  predicate IsHost(s: string) {
    1 <= |s| <= 253 && forall c :: c in s ==> IsLetterCode(c as int) || 48 <= c as int <= 57 || c as int in {45, 46}
  }

  lemma {:induction false} HostMeans(s: string)
    ensures IsDomain(s) <==> IsHost(s)
  {
    var ok := (c: char) => IsAlpha(c) || IsDigit(c) || c in {'.', '-'};
    assert forall c: char :: ok(c) <==> IsLetterCode(c as int) || 48 <= c as int <= 57 || c as int in {45, 46};
    assert (forall i :: 0 <= i < |s| ==> ok(s[i])) <==> forall c :: c in s ==> ok(c);
  }

  // -------------------------------------------------------------- error codes

  function Counted(key: string, n: nat): Value { Obj([Field(key, Number(Decimal(n)))]) }

  predicate IsContainerShape(fields: seq<Field>) {
    |fields| == 1 && (AsU64(Lookup(fields, "array")).Some? || AsU64(Lookup(fields, "object")).Some?)
  }

  function SafeBucket(s: string): string { if s in BUCKETS then s else StringBucket(s) }

  function SafeCode(code: Value): Value {
    match code
    case Str(s) => Str(if ValidIdentifier(s) then s else SafeBucket(s))
    case Arr(items) => Counted("array", |items|)
    case Obj(fields) => if IsContainerShape(fields) then code else Counted("object", |fields|)
    case _ => code
  }

  lemma {:induction false} CountedIsContainer(key: string, n: nat)
    requires key in {"array", "object"} && n < 0x1_0000_0000_0000_0000
    ensures IsContainerShape(Counted(key, n).fields)
  {
    CountIsCount(n);
  }

  lemma {:induction false} BucketsAreNoIdentifiers(s: string)
    requires s in BUCKETS
    ensures !ValidIdentifier(s)
  {
    assert s[1..][2] == s[3] && s[3] in {'<', '>'};
  }

  lemma {:induction false} SafeCodeIsProjection(code: Value, o: Outside)
    requires Storable(code, o)
    ensures SafeCode(SafeCode(code)) == SafeCode(code)
  {
    match code
    case Str(s) =>
      if !ValidIdentifier(s) {
        BucketIsMarker(s);
        BucketsAreNoIdentifiers(SafeBucket(s));
      }
    case Arr(items) => CountedIsContainer("array", |items|);
    case Obj(fields) => CountedIsContainer("object", |fields|);
    case _ =>
  }

  // ------------------------------------------------------------- call records

  datatype ErrorInfo = ErrorInfo(code: Option<Value>, layer: Option<string>, retryable: Option<bool>,
                                 kind: Option<string>, template: Option<string>, templateId: Option<string>)

  datatype CallRecord = CallRecord(ts: string, session: string, seqNo: nat, server: string, method_: string,
                                   tool: Option<string>, args: Option<Value>, latencyMs: Option<nat>,
                                   outcome: string, error: Option<ErrorInfo>, selfUs: nat, kind: string)

  /** Timestamp syntax and the digest of a session label. */
  datatype Labels = Labels(isTime: string -> bool, digest: string -> string)

  predicate IsLowerHex(c: char) { IsDigit(c) || 'a' <= c <= 'f' }

  predicate IsHex(c: char) { IsLowerHex(c) || 'A' <= c <= 'F' }

  function Lower(c: char): char { if 'A' <= c <= 'Z' then (c as int + 32) as char else c }

  function LowerAll(s: string): string { seq(|s|, i requires 0 <= i < |s| => Lower(s[i])) }

  const SESSION := "session:"

  predicate IsOpaque(s: string) { |s| == 72 && HasPrefix(s, SESSION) && forall i :: 8 <= i < 72 ==> IsHex(s[i]) }

  ghost predicate Digests(labels: Labels) {
    forall s :: |labels.digest(s)| == 64 && forall i :: 0 <= i < 64 ==> IsLowerHex(labels.digest(s)[i])
  }

  function OpaqueSession(s: string, labels: Labels): string {
    if IsOpaque(s) then LowerAll(s) else SESSION + labels.digest(s)
  }

  predicate ValidSegment(s: string) { s != "" && AllLabelChars(s) }

  predicate ValidServer(s: string) { s != "" && |s| <= MAX_LABEL && ValidSegment(s) }

  predicate ValidMethod(s: string) {
    s != "" && |s| <= MAX_LABEL && forall i :: 0 <= i < |Split(s)| ==> ValidSegment(Split(s)[i])
  }

  predicate ValidTemplateId(s: string) { |s| == 16 && forall i :: 0 <= i < 16 ==> IsLowerHex(s[i]) }

  function SanitizedError(e: ErrorInfo): ErrorInfo {
    ErrorInfo(if e.code.Some? then Some(SafeCode(e.code.value)) else None,
              if e.layer.Some? then Some(SafeBucket(e.layer.value)) else None,
              e.retryable,
              if e.kind.Some? then Some(SafeBucket(e.kind.value)) else None,
              if e.template.Some? then Some("{message}") else None,
              if e.templateId.Some? && ValidTemplateId(e.templateId.value) then e.templateId else None)
  }

  /** What of a record may be stored, field by field. */
  function Sanitized(r: CallRecord, labels: Labels, o: Outside): CallRecord {
    r.(ts := if labels.isTime(r.ts) then r.ts else "unknown",
       session := OpaqueSession(r.session, labels),
       server := if ValidServer(r.server) then r.server else "invalid",
       method_ := if ValidMethod(r.method_) then r.method_ else "unparsed/metadata",
       tool := if r.tool.Some? && !ValidTool(r.tool.value) then None else r.tool,
       args := if r.args.Some? then Some(SanitizeShape(r.args.value, o)) else None,
       outcome := if r.outcome in {"ok", "error", "unparsed", "unknown"} then r.outcome else "unknown",
       kind := if r.kind in {"real", "synthetic"} then r.kind else "unparsed",
       error := if r.error.Some? then Some(SanitizedError(r.error.value)) else None)
  }

  method SanitizeRecord(r: CallRecord, labels: Labels, o: Outside) returns (safe: CallRecord)
    ensures safe == Sanitized(r, labels, o)
  {
    safe := r;
    if !labels.isTime(safe.ts) {
      safe := safe.(ts := "unknown");
    }
    safe := safe.(session := OpaqueSession(safe.session, labels));
    if !ValidServer(safe.server) {
      safe := safe.(server := "invalid");
    }
    if !ValidMethod(safe.method_) {
      safe := safe.(method_ := "unparsed/metadata");
    }
    if safe.tool.Some? && !ValidTool(safe.tool.value) {
      safe := safe.(tool := None);
    }
    if safe.args.Some? {
      safe := safe.(args := Some(SanitizeShape(safe.args.value, o)));
    }
    if safe.outcome !in {"ok", "error", "unparsed", "unknown"} {
      safe := safe.(outcome := "unknown");
    }
    if safe.kind !in {"real", "synthetic", "unparsed"} {
      safe := safe.(kind := "unparsed");
    }
    if safe.error.Some? {
      safe := safe.(error := Some(SanitizedError(safe.error.value)));
    }
  }

  /** An error code that reveals nothing: an identifier, a size, or no text. */
  predicate CodeIsSafe(code: Value) {
    match code
    case Str(s) => ValidIdentifier(s) || s in BUCKETS
    case Arr(_) => false
    case Obj(fields) => IsContainerShape(fields)
    case _ => true
  }

  predicate ErrorIsSafe(e: ErrorInfo) {
    && (e.code.Some? ==> CodeIsSafe(e.code.value))
    && (e.layer.Some? ==> e.layer.value in BUCKETS)
    && (e.kind.Some? ==> e.kind.value in BUCKETS)
    && (e.template.Some? ==> e.template.value == "{message}")
    && (e.templateId.Some? ==> ValidTemplateId(e.templateId.value))
  }

  /** The records that may be stored: every label is well formed or a stand-in,
      and arguments and error are reduced to their shapes. */
  predicate MayBeStored(r: CallRecord, labels: Labels, o: Outside) {
    && (labels.isTime(r.ts) || r.ts == "unknown")
    && IsOpaque(r.session) && LowerAll(r.session) == r.session
    && (ValidServer(r.server) || r.server == "invalid")
    && (ValidMethod(r.method_) || r.method_ == "unparsed/metadata")
    && (r.tool.Some? ==> ValidTool(r.tool.value))
    && (r.args.Some? ==> Clean(r.args.value, o))
    && r.outcome in {"ok", "error", "unparsed", "unknown"}
    && r.kind in {"real", "synthetic", "unparsed"}
    && (r.error.Some? ==> ErrorIsSafe(r.error.value))
  }

  lemma {:induction false} SafeCodeMeans(code: Value, o: Outside)
    requires Storable(code, o)
    ensures CodeIsSafe(SafeCode(code)) && (SafeCode(code) == code <==> CodeIsSafe(code))
  {
    match code
    case Str(s) => BucketIsMarker(s);
    case Arr(items) => CountedIsContainer("array", |items|);
    case Obj(fields) => CountedIsContainer("object", |fields|);
    case _ =>
  }

  lemma {:induction false} SafeErrorMeans(e: ErrorInfo, o: Outside)
    requires e.code.Some? ==> Storable(e.code.value, o)
    ensures ErrorIsSafe(SanitizedError(e)) && (SanitizedError(e) == e <==> ErrorIsSafe(e))
  {
    if e.code.Some? {
      SafeCodeMeans(e.code.value, o);
    }
    if e.layer.Some? {
      BucketIsMarker(e.layer.value);
    }
    if e.kind.Some? {
      BucketIsMarker(e.kind.value);
    }
  }

  lemma {:induction false} SessionIsProjection(s: string, labels: Labels)
    requires Digests(labels)
    ensures IsOpaque(OpaqueSession(s, labels))
    ensures OpaqueSession(OpaqueSession(s, labels), labels) == OpaqueSession(s, labels)
  {
    var once := OpaqueSession(s, labels);
    if IsOpaque(s) {
      assert forall i :: 0 <= i < 8 ==> s[i] == SESSION[i];
      assert forall i :: 0 <= i < 72 ==> once[i] == Lower(s[i]);
      assert once[..8] == SESSION;
      forall i | 0 <= i < 72 ensures Lower(once[i]) == once[i] {
      }
      assert LowerAll(once) == once;
    } else {
      assert once[..8] == SESSION;
      assert forall i :: 8 <= i < 72 ==> once[i] == labels.digest(s)[i - 8];
      assert LowerAll(once) == once;
    }
  }

  lemma {:induction false} ErrorIsProjection(e: ErrorInfo, o: Outside)
    requires e.code.Some? ==> Storable(e.code.value, o)
    ensures SanitizedError(SanitizedError(e)) == SanitizedError(e)
  {
    if e.code.Some? {
      SafeCodeIsProjection(e.code.value, o);
    }
    if e.layer.Some? {
      BucketIsMarker(e.layer.value);
    }
    if e.kind.Some? {
      BucketIsMarker(e.kind.value);
    }
  }

  lemma {:induction false} StoredSession(s: string, labels: Labels)
    requires Digests(labels)
    ensures
      var once := OpaqueSession(s, labels);
      && IsOpaque(once) && LowerAll(once) == once
      && (once == s <==> IsOpaque(s) && LowerAll(s) == s)
  {
    SessionIsProjection(s, labels);
  }

  /** A record can cross the boundary any number of times: what crosses it may be
      stored, whatever came in, and exactly the records that may be stored are
      left as they are. */
  lemma {:induction false} RecordIsProjection(r: CallRecord, labels: Labels, o: Outside)
    requires Digests(labels)
    requires r.args.Some? ==> Storable(r.args.value, o)
    requires r.error.Some? && r.error.value.code.Some? ==> Storable(r.error.value.code.value, o)
    ensures
      var safe := Sanitized(r, labels, o);
      && MayBeStored(safe, labels, o)
      && Sanitized(safe, labels, o) == safe
      && (safe == r <==> MayBeStored(r, labels, o))
  {
    StoredSession(r.session, labels);
    if r.args.Some? {
      SanitizedIsClean(r.args.value, o);
      SanitizeIsProjection(r.args.value, o);
    }
    if r.error.Some? {
      SafeErrorMeans(r.error.value, o);
      ErrorIsProjection(r.error.value, o);
    }
  }
}
