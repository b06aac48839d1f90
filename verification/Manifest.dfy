/** The manifest validator (src/manifest.rs), for the probe kinds a scaffold
    writes. */
module Manifest {
  import opened Common
  import opened Json
  import opened Privacy

  datatype Access = ReadOnly | Mutating

  datatype Case =
    | DiscoveryCost(id: string, access: Access, maxTools: nat, maxSchemaBytes: nat)
    | TokenCost(id: string, access: Access, maxTotalTokens: nat, maxToolTokens: Option<nat>)
    | Pagination(id: string, access: Access, maxPages: nat)
    | SurfaceListing(id: string, access: Access, maxPages: nat)
    | ProtocolNegotiation(id: string, access: Access, bogusVersion: string)
    | SchemaGuessability(id: string, access: Access, tool: string, sandbox: Option<string>, arguments: Value)
    | DegradationOverN(id: string, access: Access, tool: string, sandbox: Option<string>, arguments: Value,
                       maxAttempts: nat)
    | LatencyBudget(id: string, access: Access, tool: string, sandbox: Option<string>, arguments: Value,
                    attempts: nat, maxLatencyMs: nat)
    | OutputSchema(id: string, access: Access, tool: string, sandbox: Option<string>, arguments: Value)
    | Contention(id: string, access: Access, tool: string, sandbox: Option<string>, arguments: Value)
    | PayloadBounds(id: string, access: Access, tool: string, sandbox: Option<string>, arguments: Value,
                    field: string, sizeBytes: nat, expectHandled: bool)

  datatype Document = Document(version: nat, timeoutMs: Option<nat>, sandboxes: map<string, string>, probes: seq<Case>)

  datatype Rejection =
    | WrongVersion | TimeoutRange | InvalidSandbox | NoCases
    | InvalidId | DuplicateId | InvalidTool | ArgumentsNotObject
    | SandboxNamed | SandboxMissing | SandboxUndeclared | MustBeReadOnly | LimitRange

  const PROTOCOL_VERSION := "2025-06-18"

  predicate CallsTool(c: Case) {
    !(c.DiscoveryCost? || c.TokenCost? || c.Pagination? || c.SurfaceListing? || c.ProtocolNegotiation?)
  }

  function SandboxOf(c: Case): Option<string> { if CallsTool(c) then c.sandbox else None }

  predicate IsControl(c: char) { (c as int) < 0x20 || 0x7f <= c as int <= 0x9f }

  predicate SandboxTextOk(text: string) { |text| <= 240 && forall i :: 0 <= i < |text| ==> !IsControl(text[i]) }

  predicate HasControl(text: string) {
    exists c :: c in text && (0 <= c as int < 32 || 127 <= c as int < 160)
  }

  /** Read-only cases name no sandbox; the others name a declared one. */
  predicate AccessOk(c: Case, sandboxes: map<string, string>) {
    if c.access == ReadOnly then SandboxOf(c).None? else SandboxOf(c).Some? && SandboxOf(c).value in sandboxes
  }

  /** The kinds that never write. */
  predicate NeverWrites(c: Case) {
    !(c.SchemaGuessability? || c.DegradationOverN? || c.Contention?)
  }

  predicate IsDateShaped(s: string) {
    |s| == 10 && forall i :: 0 <= i < 10 ==> if i == 4 || i == 7 then s[i] == '-' else IsDigit(s[i])
  }

  predicate LimitsOk(c: Case) {
    match c
    case DiscoveryCost(_, _, maxTools, maxSchemaBytes) => 1 <= maxTools <= 10_000 && 1 <= maxSchemaBytes <= 10_000_000
    case TokenCost(_, _, total, tool) =>
      1 <= total <= 1_000_000 && (tool.Some? ==> 1 <= tool.value <= 100_000 && tool.value <= total)
    case Pagination(_, _, pages) => 1 <= pages <= 1000
    case SurfaceListing(_, _, pages) => 1 <= pages <= 1000
    case ProtocolNegotiation(_, _, version) => IsDateShaped(version) && version != PROTOCOL_VERSION
    case DegradationOverN(_, _, _, _, _, attempts) => 2 <= attempts <= 100
    case LatencyBudget(_, _, _, _, _, attempts, latency) => 2 <= attempts <= 20 && 1 <= latency <= 600_000
    case PayloadBounds(_, _, _, _, _, field, size, _) => ValidIdentifier(field) && 1 <= size <= 16_000_000
    case _ => true
  }

  predicate CaseOk(c: Case, sandboxes: map<string, string>) {
    && ValidIdentifier(c.id)
    && (CallsTool(c) ==> ValidTool(c.tool) && c.arguments.Obj?)
    && AccessOk(c, sandboxes)
    && (NeverWrites(c) ==> c.access == ReadOnly)
    && LimitsOk(c)
  }

  predicate DistinctIds(probes: seq<Case>) {
    forall i, j :: 0 <= i < j < |probes| ==> probes[i].id != probes[j].id
  }

  /** What the validator lets through. */
  predicate Acceptable(m: Document) {
    && m.version == 1
    && (m.timeoutMs.Some? ==> 100 <= m.timeoutMs.value <= 600_000)
    && SandboxesOk(m.sandboxes)
    && m.probes != []
    && CasesOk(m)
  }

  predicate CasesOk(m: Document) {
    (forall i :: 0 <= i < |m.probes| ==> CaseOk(m.probes[i], m.sandboxes)) && DistinctIds(m.probes)
  }

  predicate SandboxesOk(sandboxes: map<string, string>) {
    forall name :: name in sandboxes ==> ValidIdentifier(name) && SandboxTextOk(sandboxes[name])
  }

  lemma {:induction false} TextMeans(text: string)
    ensures SandboxTextOk(text) <==> |text| <= 240 && !HasControl(text)
  {
    assert (exists i :: 0 <= i < |text| && IsControl(text[i])) <==> exists c :: c in text && IsControl(c);
  }

  // --------------------------------------------------------------- rejections

  /** A case whose own tool and arguments are in order. */
  predicate CallOk(c: Case) { CallsTool(c) ==> ValidTool(c.tool) && c.arguments.Obj? }

  /** Why a case is turned down after those whose ids are in `ids`: the first of
      its faults, in the order they are looked for. */
  predicate IsFault(c: Case, sandboxes: map<string, string>, ids: set<string>, fault: Rejection) {
    var isNew := ValidIdentifier(c.id) && c.id !in ids;
    match fault
    case InvalidId => !ValidIdentifier(c.id)
    case DuplicateId => ValidIdentifier(c.id) && c.id in ids
    case InvalidTool => isNew && CallsTool(c) && !ValidTool(c.tool)
    case ArgumentsNotObject => isNew && CallsTool(c) && ValidTool(c.tool) && !c.arguments.Obj?
    case SandboxNamed => isNew && CallOk(c) && c.access == ReadOnly && CallsTool(c) && c.sandbox.Some?
    case SandboxMissing => isNew && CallOk(c) && c.access == Mutating && !(CallsTool(c) && c.sandbox.Some?)
    case SandboxUndeclared =>
      && isNew && CallOk(c) && c.access == Mutating
      && CallsTool(c) && c.sandbox.Some? && c.sandbox.value !in sandboxes
    case MustBeReadOnly => isNew && CallOk(c) && AccessOk(c, sandboxes) && NeverWrites(c) && c.access == Mutating
    case LimitRange =>
      isNew && CallOk(c) && AccessOk(c, sandboxes) && (NeverWrites(c) ==> c.access == ReadOnly) && !LimitsOk(c)
    case _ => false
  }

  /** A case has one first fault at most, and none exactly when it is in order. */
  lemma {:induction false} OneFault(c: Case, sandboxes: map<string, string>, ids: set<string>, a: Rejection,
                                    b: Rejection)
    requires IsFault(c, sandboxes, ids, a) && IsFault(c, sandboxes, ids, b)
    ensures a == b && !(CaseOk(c, sandboxes) && c.id !in ids)
  {
  }

  function IdsBefore(probes: seq<Case>, i: nat): set<string>
    requires i <= |probes|
  {
    set j | 0 <= j < i :: probes[j].id
  }

  /** Why a manifest is turned down: the first of its faults. */
  ghost predicate IsFirstFault(m: Document, fault: Rejection) {
    var timely := m.timeoutMs.Some? ==> 100 <= m.timeoutMs.value <= 600_000;
    match fault
    case WrongVersion => m.version != 1
    case TimeoutRange => m.version == 1 && !timely
    case InvalidSandbox => m.version == 1 && timely && !SandboxesOk(m.sandboxes)
    case NoCases => m.version == 1 && timely && SandboxesOk(m.sandboxes) && m.probes == []
    case _ =>
      && m.version == 1 && timely && SandboxesOk(m.sandboxes)
      && exists i :: FirstFaultAt(m, i, fault)
  }

  /** The cases before `i` are in order, and the one at `i` is not. */
  predicate FirstFaultAt(m: Document, i: nat, fault: Rejection) {
    && i < |m.probes|
    && (forall j :: 0 <= j < i ==> CaseOk(m.probes[j], m.sandboxes))
    && (forall j, k :: 0 <= j < k < i ==> m.probes[j].id != m.probes[k].id)
    && IsFault(m.probes[i], m.sandboxes, IdsBefore(m.probes, i), fault)
  }

  // ---------------------------------------------------------------- validation

  /** The kinds and their limits. */
  method ValidateKind(c: Case) returns (problem: Option<Rejection>)
    ensures problem == Some(MustBeReadOnly) <==> NeverWrites(c) && c.access == Mutating
    ensures problem == Some(LimitRange) <==> (NeverWrites(c) ==> c.access == ReadOnly) && !LimitsOk(c)
    ensures problem in [None, Some(MustBeReadOnly), Some(LimitRange)]
  {
    problem := None;
    match c {
      case DiscoveryCost(_, access, maxTools, maxSchemaBytes) =>
        if access != ReadOnly {
          return Some(MustBeReadOnly);
        }
        if maxTools < 1 || maxTools > 10_000 || maxSchemaBytes < 1 || maxSchemaBytes > 10_000_000 {
          return Some(LimitRange);
        }
      case TokenCost(_, access, total, tool) =>
        if access != ReadOnly {
          return Some(MustBeReadOnly);
        }
        if total < 1 || total > 1_000_000 {
          return Some(LimitRange);
        }
        if tool.Some? {
          if tool.value < 1 || tool.value > 100_000 {
            return Some(LimitRange);
          }
          if tool.value > total {
            return Some(LimitRange);
          }
        }
      case Pagination(_, access, pages) =>
        if access != ReadOnly {
          return Some(MustBeReadOnly);
        }
        if pages < 1 || pages > 1000 {
          return Some(LimitRange);
        }
      case SurfaceListing(_, access, pages) =>
        if access != ReadOnly {
          return Some(MustBeReadOnly);
        }
        if pages < 1 || pages > 1000 {
          return Some(LimitRange);
        }
      case ProtocolNegotiation(_, access, version) =>
        if access != ReadOnly {
          return Some(MustBeReadOnly);
        }
        if !IsDateShaped(version) || version == PROTOCOL_VERSION {
          return Some(LimitRange);
        }
      case SchemaGuessability(_, _, _, _, _) =>
      case DegradationOverN(_, _, _, _, _, attempts) =>
        if attempts < 2 || attempts > 100 {
          return Some(LimitRange);
        }
      case LatencyBudget(_, access, _, _, _, attempts, latency) =>
        if access != ReadOnly {
          return Some(MustBeReadOnly);
        }
        if attempts < 2 || attempts > 20 || latency < 1 || latency > 600_000 {
          return Some(LimitRange);
        }
      case OutputSchema(_, access, _, _, _) =>
        if access != ReadOnly {
          return Some(MustBeReadOnly);
        }
      case Contention(_, _, _, _, _) =>
      case PayloadBounds(_, access, _, _, _, field, size, _) =>
        if access != ReadOnly {
          return Some(MustBeReadOnly);
        }
        if !ValidIdentifier(field) || size < 1 || size > 16_000_000 {
          return Some(LimitRange);
        }
    }
  }

  /** The first fault of one case after those whose ids are in `ids`. */
  method ValidateCase(c: Case, sandboxes: map<string, string>, ids: set<string>)
    returns (problem: Option<Rejection>, more: set<string>)
    requires ValidIdentifier(c.id)
    ensures more == ids + {c.id}
    ensures problem.None? <==> c.id !in ids && CaseOk(c, sandboxes)
    ensures problem.Some? ==> IsFault(c, sandboxes, ids, problem.value)
  {
    more := ids + {c.id};
    if c.id in ids {
      return Some(DuplicateId), more;
    }
    if CallsTool(c) && !ValidTool(c.tool) {
      return Some(InvalidTool), more;
    }
    if CallsTool(c) && !c.arguments.Obj? {
      return Some(ArgumentsNotObject), more;
    }
    match (c.access, SandboxOf(c)) {
      case (ReadOnly, None) =>
      case (ReadOnly, Some(_)) => return Some(SandboxNamed), more;
      case (Mutating, None) => return Some(SandboxMissing), more;
      case (Mutating, Some(name)) =>
        if name !in sandboxes {
          return Some(SandboxUndeclared), more;
        }
    }
    problem := ValidateKind(c);
  }

  /** The cases in order, remembering their ids. */
  method ValidateCases(m: Document) returns (problem: Option<Rejection>)
    ensures problem.None? <==> CasesOk(m)
    ensures problem.Some? ==> exists i :: FirstFaultAt(m, i, problem.value)
  {
    var ids: set<string> := {};
    for i := 0 to |m.probes|
      invariant forall j :: 0 <= j < i ==> CaseOk(m.probes[j], m.sandboxes)
      invariant forall j, k :: 0 <= j < k < i ==> m.probes[j].id != m.probes[k].id
      invariant ids == IdsBefore(m.probes, i)
    {
      if !ValidIdentifier(m.probes[i].id) {
        assert FirstFaultAt(m, i, InvalidId);
        return Some(InvalidId);
      }
      var found;
      found, ids := ValidateCase(m.probes[i], m.sandboxes, ids);
      if found.Some? {
        assert FirstFaultAt(m, i, found.value);
        return found;
      }
    }
    problem := None;
  }

  method Validate(m: Document) returns (problem: Option<Rejection>)
    ensures problem.None? <==> Acceptable(m)
    ensures problem.Some? ==> IsFirstFault(m, problem.value)
  {
    if m.version != 1 {
      return Some(WrongVersion);
    }
    if m.timeoutMs.Some? && (m.timeoutMs.value < 100 || m.timeoutMs.value > 600_000) {
      return Some(TimeoutRange);
    }
    forall name | name in m.sandboxes
      ensures SandboxTextOk(m.sandboxes[name]) <==> |m.sandboxes[name]| <= 240 && !HasControl(m.sandboxes[name])
    {
      TextMeans(m.sandboxes[name]);
    }
    if exists name :: name in m.sandboxes && !ValidIdentifier(name) {
      return Some(InvalidSandbox);
    }
    if exists name :: name in m.sandboxes && (|m.sandboxes[name]| > 240 || HasControl(m.sandboxes[name])) {
      return Some(InvalidSandbox);
    }
    if m.probes == [] {
      return Some(NoCases);
    }
    problem := ValidateCases(m);
  }

  /** Only another version than the supported one may be offered. */
  lemma {:induction false} SupportedVersionIsRefused(id: string, access: Access)
    ensures !LimitsOk(ProtocolNegotiation(id, access, "2025-06-18"))
  {
  }

  /** Year, month and day by their digits. */
  lemma {:induction false} DatesMean(s: string)
    ensures IsDateShaped(s) <==>
      exists y, m, d :: s == y + "-" + m + "-" + d && AreDigits(y, 4) && AreDigits(m, 2) && AreDigits(d, 2)
  {
    if IsDateShaped(s) {
      var y, m, d := s[..4], s[5..7], s[8..];
      assert s == y + "-" + m + "-" + d;
      assert AreDigits(y, 4) && AreDigits(m, 2) && AreDigits(d, 2);
    }
    if y, m, d :| s == y + "-" + m + "-" + d && AreDigits(y, 4) && AreDigits(m, 2) && AreDigits(d, 2) {
      assert forall i :: 0 <= i < 4 ==> s[i] == y[i];
      assert forall i :: 5 <= i < 7 ==> s[i] == m[i - 5];
      assert forall i :: 8 <= i < 10 ==> s[i] == d[i - 8];
    }
  }

  predicate AreDigits(s: string, n: nat) { |s| == n && forall i :: 0 <= i < n ==> 48 <= s[i] as int <= 57 }
}
