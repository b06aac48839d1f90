/** What the readiness score promises: skipping never pays, no loss is silent,
    and only the latency checks depend on the machine. */
module ScoreLaws {
  import opened Common
  import opened Score

  // ---------------------------------------------------------------- rounding

  lemma {:induction false} RoundMonotone(x: real, y: real)
    requires x <= y
    ensures Round(x) <= Round(y)
  {
  }

  lemma {:induction false} RoundsToFull(x: real)
    ensures Round(x) == 100 <==> x >= 99.5
  {
  }

  // ----------------------------------------------------- sums, means, counts

  lemma {:induction false} SumConcat(a: seq<real>, b: seq<real>)
    ensures Sum(a + b) == Sum(a) + Sum(b)
  {
    if b == [] {
      assert a + b == a;
    } else {
      var front := b[..|b| - 1];
      SumConcat(a, front);
      assert (a + b)[..|a + b| - 1] == a + front;
    }
  }

  lemma {:induction false} SumAtLeast(s: seq<real>, c: real)
    requires forall x :: x in s ==> c <= x
    ensures c * |s| as real <= Sum(s)
  {
    if s != [] {
      var front := s[..|s| - 1];
      assert forall x :: x in front ==> x in s;
      assert s[|s| - 1] in s;
      SumAtLeast(front, c);
      assert c * |s| as real == c * (|s| - 1) as real + c;
    }
  }

  lemma {:induction false} MeanAtLeast(s: seq<real>, c: real)
    requires s != [] && forall x :: x in s ==> c <= x
    ensures c <= Mean(s)
  {
    SumAtLeast(s, c);
    Divides(c, Sum(s), |s| as real);
  }

  lemma {:induction false} Divides(c: real, total: real, n: real)
    requires n > 0.0
    ensures c <= total / n <==> c * n <= total
  {
    var q := total / n;
    assert q * n == total;
    assert q < c ==> (c - q) * n > 0.0;
    assert c <= q ==> (q - c) * n >= 0.0;
  }

  /** A smaller total over at least as many parts is a smaller quotient. */
  lemma {:induction false} QuotientsOrder(x: real, y: real, m: real, n: real)
    requires x <= y && 0.0 <= y && 0.0 < n <= m
    ensures x / m <= y / n
  {
    var q := y / n;
    assert q * n == y;
    assert q >= 0.0;
    assert q * (m - n) >= 0.0;
    assert q * m >= y;
    var p := x / m;
    assert p * m == x;
    assert p > q ==> (p - q) * m > 0.0;
  }

  lemma {:induction false} CountMonotone<S, T>(s: seq<S>, p: S -> bool, t: seq<T>, q: T -> bool)
    requires |s| == |t| && forall i :: 0 <= i < |s| && p(s[i]) ==> q(t[i])
    ensures Count(s, p) <= Count(t, q)
  {
    if s != [] {
      CountMonotone(s[..|s| - 1], p, t[..|t| - 1], q);
    }
  }

  lemma {:induction false} SameCounts(a: seq<Tool>, b: seq<Tool>, p: Tool -> bool)
    requires |a| == |b| && forall i :: 0 <= i < |a| ==> p(a[i]) == p(b[i])
    ensures Count(a, p) == Count(b, p)
  {
    CountMonotone(a, p, b, p);
    CountMonotone(b, p, a, p);
  }

  lemma {:induction false} CountAll<T>(s: seq<T>, p: T -> bool)
    requires forall x :: x in s ==> p(x)
    ensures Count(s, p) == |s|
  {
    if s != [] {
      assert s[|s| - 1] in s;
      CountAll(s[..|s| - 1], p);
    }
  }

  lemma {:induction false} CountNone<T>(s: seq<T>, p: T -> bool)
    requires forall x :: x in s ==> !p(x)
    ensures Count(s, p) == 0
  {
    if s != [] {
      assert s[|s| - 1] in s;
      CountNone(s[..|s| - 1], p);
    }
  }

  lemma {:induction false} FlatMapEmpty<T, U>(s: seq<T>, f: T -> seq<U>)
    ensures FlatMap(s, f) == [] <==> forall x :: x in s ==> f(x) == []
  {
    if s != [] {
      var front, last := s[..|s| - 1], s[|s| - 1];
      FlatMapEmpty(front, f);
      assert s == front + [last];
      assert forall x :: x in s <==> x in front || x == last;
      assert FlatMap(s, f) == [] <==> FlatMap(front, f) == [] && f(last) == [];
    }
  }

  lemma {:induction false} FlatMapAll<T, U(!new)>(s: seq<T>, f: T -> seq<U>, p: U -> bool)
    requires forall x, y :: x in s && y in f(x) ==> p(y)
    ensures forall y :: y in FlatMap(s, f) ==> p(y)
  {
    if s != [] {
      FlatMapAll(s[..|s| - 1], f, p);
    }
  }

  lemma {:induction false} FlatMapSame<S, T, U>(s: seq<S>, f: S -> seq<U>, t: seq<T>, g: T -> seq<U>)
    requires |s| == |t| && forall i :: 0 <= i < |s| ==> f(s[i]) == g(t[i])
    ensures FlatMap(s, f) == FlatMap(t, g)
  {
    if s != [] {
      FlatMapSame(s[..|s| - 1], f, t[..|t| - 1], g);
    }
  }

  ghost predicate NoMore(a: seq<real>, b: seq<real>) {
    |a| == |b| && forall i :: 0 <= i < |a| ==> a[i] <= b[i]
  }

  lemma {:induction false} SumMonotone(a: seq<real>, b: seq<real>)
    requires NoMore(a, b)
    ensures Sum(a) <= Sum(b)
  {
    if a != [] {
      SumMonotone(a[..|a| - 1], b[..|b| - 1]);
    }
  }

  lemma {:induction false} FlatMapMonotone<S, T>(s: seq<S>, f: S -> seq<real>, t: seq<T>, g: T -> seq<real>)
    requires |s| == |t| && forall i :: 0 <= i < |s| ==> NoMore(f(s[i]), g(t[i]))
    ensures NoMore(FlatMap(s, f), FlatMap(t, g))
  {
    if s != [] {
      FlatMapMonotone(s[..|s| - 1], f, t[..|t| - 1], g);
    }
  }

  // ------------------------------------------------------------- percentages

  lemma {:induction false} PercentMonotone(x: nat, y: nat, whole: nat)
    requires whole > 0 && x <= y
    ensures Percent(x, whole) <= Percent(y, whole)
  {
    QuotientsOrder(100.0 * x as real, 100.0 * y as real, whole as real, whole as real);
  }

  lemma {:induction false} PercentRange(part: nat, whole: nat)
    requires whole > 0 && part <= whole
    ensures 0.0 <= Percent(part, whole) <= 100.0
    ensures part == whole ==> Percent(part, whole) == 100.0
  {
    QuotientsOrder(0.0, 100.0 * part as real, whole as real, whole as real);
    QuotientsOrder(100.0 * part as real, 100.0 * whole as real, whole as real, whole as real);
  }

  // -------------------------------------------------------- reliability marks

  lemma {:induction false} SuccessRange(calls: Calls)
    ensures 0.0 <= SuccessRate(calls) <= 100.0
  {
    if calls.Total() > 0 {
      PercentRange(calls.successful, calls.Total());
    }
  }

  lemma {:induction false} PartsRange(e: Exercise, mode: Latency)
    requires e.Exercised?
    ensures forall x :: x in Parts(e, mode) ==> 0.0 <= x <= 100.0
  {
  }

  lemma {:induction false} EntryMonotone(success: real, a: seq<real>, b: seq<real>)
    requires NoMore(a, b) && a != [] && 0.0 <= success
    requires forall x :: x in b ==> 0.0 <= x
    ensures Entry(success, a) <= Entry(success, b) && 0.0 <= Entry(success, b)
  {
    SumMonotone(a, b);
    SumAtLeast(b, 0.0);
    var factor := success / 100.0;
    assert factor * Sum(a) <= factor * Sum(b) by {
      assert factor * (Sum(b) - Sum(a)) >= 0.0;
    }
    QuotientsOrder(factor * Sum(a), factor * Sum(b), |a| as real, |b| as real);
    QuotientsOrder(0.0, factor * Sum(b), |b| as real, |b| as real);
  }

  lemma {:induction false} EntriesNotNegative(t: Tool, mode: Latency)
    ensures forall x :: x in Entries(mode)(t) ==> 0.0 <= x
  {
    if WasExercised(t) {
      SuccessRange(t.calls);
      var parts := Parts(t.exercise.value, mode);
      PartsRange(t.exercise.value, mode);
      EntryMonotone(SuccessRate(t.calls), parts, parts);
    }
  }

  lemma {:induction false} AllEntriesNotNegative(o: Observations, mode: Latency)
    ensures forall x :: x in AllEntries(o, mode) ==> 0.0 <= x
    ensures 0.0 <= Sum(AllEntries(o, mode))
  {
    forall t | t in o.tools ensures forall x :: x in Entries(mode)(t) ==> 0.0 <= x {
      EntriesNotNegative(t, mode);
    }
    FlatMapAll(o.tools, Entries(mode), x => 0.0 <= x);
    SumAtLeast(AllEntries(o, mode), 0.0);
  }

  /** Lower entries in total, over at least as many, score no higher. */
  lemma {:induction false} ReliabilityOrder(a: Observations, m: Latency, b: Observations, n: Latency)
    requires FlatMap(b.tools, Entries(n)) == [] <==> FlatMap(a.tools, Entries(m)) == []
    requires Sum(AllEntries(b, n)) <= Sum(AllEntries(a, m)) && |AllEntries(b, n)| >= |AllEntries(a, m)|
    ensures Reliability(b, n).score <= Reliability(a, m).score
  {
    if FlatMap(a.tools, Entries(m)) != [] {
      AllEntriesNotNegative(a, m);
      QuotientsOrder(Sum(AllEntries(b, n)), Sum(AllEntries(a, m)),
                     |AllEntries(b, n)| as real, |AllEntries(a, m)| as real);
      RoundMonotone(Mean(AllEntries(b, n)), Mean(AllEntries(a, m)));
    }
  }

  // ---------------------------------------------------- skipping never pays

  /** What a run that skips a tool sees instead of what it would have seen: the
      tool is not called, and a tool it could have judged is dishonest. A tool
      no arguments can be built for was not going to be called anyway. */
  ghost predicate SkipsTool(called: Tool, skipped: Tool) {
    && skipped == called.(exercise := skipped.exercise, honesty := skipped.honesty, calls := skipped.calls)
    && Callable(called)
    && skipped.honesty == (if Judged(called) then Some(Dishonest(CoverageSkipped)) else None)
    && (|| (skipped.exercise == Some(NotExercised(CoverageSkipped)) && skipped.calls == Calls(0, 0, 0, 0, 0))
        || (skipped.exercise == called.exercise == Some(NotExercised(CoverageUnsynthesizable))
            && skipped.calls == called.calls))
  }

  ghost predicate SkipsTools(called: seq<Tool>, skipped: seq<Tool>) {
    && |skipped| == |called|
    && forall i :: 0 <= i < |called| ==> skipped[i] == called[i] || SkipsTool(called[i], skipped[i])
  }

  /** Any set of callable tools is skipped. The server cases are not run once a
      tool counts as skipped, so nothing is said of what they would report. */
  ghost predicate SkipsSome(called: Observations, skipped: Observations) {
    && SkipsTools(called.tools, skipped.tools)
    && skipped.protocol == called.protocol
    && (!AnySkipped(skipped.tools) ==>
          skipped.contention == called.contention && skipped.payload == called.payload)
  }

  lemma {:induction false} SkippedEntry(t: Tool, u: Tool, mode: Latency)
    requires SkipsTool(t, u)
    ensures NoMore(Entries(mode)(u), Entries(mode)(t))
  {
    EntriesNotNegative(t, mode);
    assert Entries(mode)(u) == [0.0] && |Entries(mode)(t)| == 1;
    assert Entries(mode)(t)[0] in Entries(mode)(t);
  }

  lemma {:induction false} SkippedEntries(a: Observations, b: Observations, mode: Latency)
    requires SkipsSome(a, b)
    ensures NoMore(FlatMap(b.tools, Entries(mode)), FlatMap(a.tools, Entries(mode)))
  {
    forall i | 0 <= i < |a.tools| ensures NoMore(Entries(mode)(b.tools[i]), Entries(mode)(a.tools[i])) {
      if b.tools[i] != a.tools[i] {
        SkippedEntry(a.tools[i], b.tools[i], mode);
      }
    }
    FlatMapMonotone(b.tools, Entries(mode), a.tools, Entries(mode));
  }

  lemma {:induction false} SkippedStaysSkipped(a: Observations, b: Observations)
    requires SkipsSome(a, b) && AnySkipped(a.tools)
    ensures AnySkipped(b.tools)
  {
    var t :| t in a.tools && Skipped(t);
    var i :| 0 <= i < |a.tools| && a.tools[i] == t;
    assert Skipped(b.tools[i]) && b.tools[i] in b.tools;
  }

  lemma {:induction false} SkippingTotals(a: Observations, b: Observations, mode: Latency)
    requires SkipsSome(a, b)
    ensures Sum(AllEntries(b, mode)) <= Sum(AllEntries(a, mode)) && |AllEntries(b, mode)| >= |AllEntries(a, mode)|
  {
    SkippedEntries(a, b, mode);
    var sa, sb := AnySkipped(a.tools), AnySkipped(b.tools);
    if sa {
      SkippedStaysSkipped(a, b);
    }
    CasesOrder(FlatMap(a.tools, Entries(mode)), FlatMap(b.tools, Entries(mode)),
               CaseEntries(sa, a.contention), CaseEntries(sa, a.payload),
               CaseEntries(sb, b.contention), CaseEntries(sb, b.payload));
  }

  /** Either the cases are the same, or both of the second run's are zero. */
  lemma {:induction false} CasesOrder(ea: seq<real>, eb: seq<real>, xa: seq<real>, ya: seq<real>, xb: seq<real>,
                                      yb: seq<real>)
    requires NoMore(eb, ea) && |xa| <= 1 && |ya| <= 1
    requires forall x :: x in xa + ya ==> 0.0 <= x
    requires (xa == xb && ya == yb) || xb == yb == [0.0]
    ensures Sum(eb + xb + yb) <= Sum(ea + xa + ya) && |eb + xb + yb| >= |ea + xa + ya|
  {
    SumMonotone(eb, ea);
    SumOfCases(ea, xa, ya);
    SumOfCases(eb, xb, yb);
    assert xa != [] ==> xa[0] in xa + ya;
    assert ya != [] ==> ya[0] in xa + ya;
  }

  lemma {:induction false} SkippingReliability(a: Observations, b: Observations, mode: Latency)
    requires SkipsSome(a, b)
    ensures Reliability(b, mode).score <= Reliability(a, mode).score
  {
    SkippedEntries(a, b, mode);
    SkippingTotals(a, b, mode);
    ReliabilityOrder(a, mode, b, mode);
  }

  lemma {:induction false} SumOfCases(entries: seq<real>, x: seq<real>, y: seq<real>)
    requires |x| <= 1 && |y| <= 1
    ensures Sum(entries + x + y) == Sum(entries) + (if x == [] then 0.0 else x[0]) + (if y == [] then 0.0 else y[0])
  {
    SumConcat(entries + x, y);
    SumConcat(entries, x);
    assert forall s: seq<real> :: |s| == 1 ==> Sum(s) == s[0] by {
      forall s: seq<real> | |s| == 1 ensures Sum(s) == s[0] {
        assert Sum(s[..0]) == 0.0;
      }
    }
  }

  lemma {:induction false} HonestyOrder(a: seq<Tool>, b: seq<Tool>)
    requires Count(b, Judged) == Count(a, Judged) && Count(b, IsHonest) <= Count(a, IsHonest)
    ensures ErrorHonesty(b).score <= ErrorHonesty(a).score
  {
    if Count(a, Judged) > 0 {
      PercentMonotone(Count(b, IsHonest), Count(a, IsHonest), Count(a, Judged));
    }
  }

  lemma {:induction false} SkippingHonesty(a: seq<Tool>, b: seq<Tool>)
    requires SkipsTools(a, b)
    ensures ErrorHonesty(b).score <= ErrorHonesty(a).score
  {
    SameCounts(a, b, Judged);
    CountMonotone(b, IsHonest, a, IsHonest);
    HonestyOrder(a, b);
  }

  lemma {:induction false} CoverageOrder(a: seq<Tool>, b: seq<Tool>)
    requires Surface(b) == Surface(a) && Count(b, Covered) <= Count(a, Covered)
    ensures Coverage(b).score <= Coverage(a).score
  {
    if Surface(a) > 0 {
      PercentMonotone(Count(b, Covered), Count(a, Covered), Surface(a));
    }
  }

  lemma {:induction false} SkippingCoverage(a: seq<Tool>, b: seq<Tool>)
    requires SkipsTools(a, b)
    ensures Coverage(b).score <= Coverage(a).score
  {
    SameCounts(a, b, Callable);
    CountMonotone(b, Covered, a, Covered);
    CoverageOrder(a, b);
  }

  /** The catalog area reads the catalog alone. */
  lemma {:induction false} SameCatalog(a: seq<Tool>, b: seq<Tool>)
    requires |a| == |b|
    requires forall i :: 0 <= i < |a| ==>
      a[i].facts == b[i].facts && a[i].class_ == b[i].class_ && a[i].name == b[i].name
    ensures Catalog(a) == Catalog(b)
  {
    if a != [] {
      FlatMapSame(a, Fractions, b, Fractions);
      FlatMapSame(a, CatalogChecks, b, CatalogChecks);
    }
  }

  // ---------------------------------------------------------- context weight

  /** No tool is heavier than the one named heaviest, and of those as heavy as it
      is, it has the first name. */
  lemma {:induction false} HeaviestIsHeaviest(tools: seq<Tool>)
    requires tools != []
    ensures
      var h := Heaviest(tools);
      && h in tools
      && forall t :: t in tools ==>
           t.tokens <= h.tokens && (t.tokens == h.tokens ==> StringOrder.ComesFirst(h.name, t.name))
  {
    NoneHeavier(tools);
    var h := Heaviest(tools);
    forall t | t in tools && t.tokens == h.tokens ensures StringOrder.ComesFirst(h.name, t.name) {
      StringOrder.LeMeans(h.name, t.name);
    }
  }

  lemma {:induction false} NoneHeavier(tools: seq<Tool>)
    requires tools != []
    ensures Heaviest(tools) in tools
    ensures forall t :: t in tools ==> NoHeavier(t, Heaviest(tools))
  {
    var front, last := tools[..|tools| - 1], tools[|tools| - 1];
    assert tools == front + [last];
    StringOrder.Reflexive(last.name);
    if |tools| > 1 {
      NoneHeavier(front);
      var best := Heaviest(front);
      StringOrder.Total(best.name, last.name);
      forall t | t in front ensures NoHeavier(t, Heaviest(tools)) {
        if NoHeavier(best, last) && t.tokens == best.tokens == last.tokens {
          StringOrder.Transitive(last.name, best.name, t.name);
        }
      }
    }
  }

  lemma {:induction false} TotalMonotone(a: seq<Tool>, b: seq<Tool>)
    requires |a| == |b| && forall i :: 0 <= i < |a| ==> a[i].tokens <= b[i].tokens
    ensures TotalTokens(a) <= TotalTokens(b)
  {
    if a != [] {
      TotalMonotone(a[..|a| - 1], b[..|b| - 1]);
    }
  }

  lemma {:induction false} CurveFalls(v: nat, w: nat, full: nat, zero: nat, ln: real -> real)
    requires 0 < full < zero && Increasing(ln) && v <= w
    ensures 0.0 <= LogCurve(w, full, zero, ln) <= LogCurve(v, full, zero, ln) <= 100.0
  {
    var span := ln(zero as real) - ln(full as real);
    CurveRange(v, full, zero, ln);
    CurveRange(w, full, zero, ln);
    if full < v && w < zero && v < w {
      assert ln(v as real) < ln(w as real);
      QuotientsOrder(100.0 * (ln(zero as real) - ln(w as real)), 100.0 * (ln(zero as real) - ln(v as real)),
                     span, span);
    }
  }

  lemma {:induction false} CurveRange(v: nat, full: nat, zero: nat, ln: real -> real)
    requires 0 < full < zero && Increasing(ln)
    ensures 0.0 <= LogCurve(v, full, zero, ln) <= 100.0
  {
    if full < v < zero {
      var span, rest := ln(zero as real) - ln(full as real), ln(zero as real) - ln(v as real);
      assert 0.0 < rest < span;
      QuotientsOrder(0.0, 100.0 * rest, span, span);
      QuotientsOrder(100.0 * rest, 100.0 * span, span, span);
    }
  }

  /** A catalog none of whose entries grew scores no lower for context. */
  lemma {:induction false} WeightNeverPays(a: seq<Tool>, b: seq<Tool>, ln: real -> real)
    requires Increasing(ln)
    requires |a| == |b| && forall i :: 0 <= i < |a| ==> a[i].tokens <= b[i].tokens
    ensures Context(b, ln).score <= Context(a, ln).score
  {
    TotalMonotone(a, b);
    if a != [] {
      HeaviestIsHeaviest(a);
      HeaviestIsHeaviest(b);
      var i :| 0 <= i < |a| && a[i] == Heaviest(a);
      assert b[i] in b;
    }
    CurveFalls(TotalTokens(a), TotalTokens(b), CATALOG_FULL_TOKENS, CATALOG_ZERO_TOKENS, ln);
    CurveFalls(HeaviestTokens(a), HeaviestTokens(b), TOOL_FULL_TOKENS, TOOL_ZERO_TOKENS, ln);
  }

  lemma {:induction false} WeightedMonotone(p: nat, c: nat, x: nat, h: nat, r: nat, v: nat,
                         p': nat, c': nat, x': nat, h': nat, r': nat, v': nat)
    requires p <= p' && c <= c' && x <= x' && h <= h' && r <= r' && v <= v'
    ensures Weighted(p, c, x, h, r, v) <= Weighted(p', c', x', h', r', v')
  {
  }

  /** Areas no higher make a score no higher. */
  lemma {:induction false} FoldOrder(a: Observations, b: Observations, ln: real -> real)
    requires Increasing(ln)
    requires Protocol(a.protocol).score <= Protocol(b.protocol).score
    requires Catalog(a.tools).score <= Catalog(b.tools).score
    requires Context(a.tools, ln).score <= Context(b.tools, ln).score
    requires ErrorHonesty(a.tools).score <= ErrorHonesty(b.tools).score
    requires Coverage(a.tools).score <= Coverage(b.tools).score
    ensures Reliability(a, Banded).score <= Reliability(b, Banded).score ==> Fold(a, ln).score <= Fold(b, ln).score
    ensures Reliability(a, FullMarks).score <= Reliability(b, FullMarks).score ==>
      Fold(a, ln).withoutLatency <= Fold(b, ln).withoutLatency
  {
    forall r, r' | 0 <= r <= r'
      ensures Weighted(Protocol(a.protocol).score, Catalog(a.tools).score, Context(a.tools, ln).score,
                       ErrorHonesty(a.tools).score, r, Coverage(a.tools).score)
           <= Weighted(Protocol(b.protocol).score, Catalog(b.tools).score, Context(b.tools, ln).score,
                       ErrorHonesty(b.tools).score, r', Coverage(b.tools).score)
    {
      WeightedMonotone(Protocol(a.protocol).score, Catalog(a.tools).score, Context(a.tools, ln).score,
                       ErrorHonesty(a.tools).score, r, Coverage(a.tools).score,
                       Protocol(b.protocol).score, Catalog(b.tools).score, Context(b.tools, ln).score,
                       ErrorHonesty(b.tools).score, r', Coverage(b.tools).score);
    }
  }

  lemma {:induction false} SkippingAreas(a: Observations, b: Observations, ln: real -> real)
    requires Increasing(ln) && SkipsSome(a, b)
    ensures Reliability(b, Banded).score <= Reliability(a, Banded).score
    ensures Reliability(b, FullMarks).score <= Reliability(a, FullMarks).score
    ensures ErrorHonesty(b.tools).score <= ErrorHonesty(a.tools).score
    ensures Coverage(b.tools).score <= Coverage(a.tools).score
    ensures Catalog(b.tools) == Catalog(a.tools)
    ensures Context(b.tools, ln).score == Context(a.tools, ln).score
  {
    SkippingReliability(a, b, Banded);
    SkippingReliability(a, b, FullMarks);
    SkippingHonesty(a.tools, b.tools);
    SkippingCoverage(a.tools, b.tools);
    SkippingCatalog(a.tools, b.tools, ln);
  }

  lemma {:induction false} SkippingCatalog(a: seq<Tool>, b: seq<Tool>, ln: real -> real)
    requires Increasing(ln) && SkipsTools(a, b)
    ensures Catalog(b) == Catalog(a) && Context(b, ln).score == Context(a, ln).score
  {
    SameCatalog(a, b);
    SameContext(a, b, ln);
  }

  /** Skipping any callable tools raises no area and so not the score either,
      though it changes what the reliability mean divides by. */
  lemma {:induction false} SkippingNeverPays(a: Observations, b: Observations, ln: real -> real)
    requires Increasing(ln) && SkipsSome(a, b)
    ensures Fold(b, ln).score <= Fold(a, ln).score
    ensures Fold(b, ln).withoutLatency <= Fold(a, ln).withoutLatency
    ensures Fold(b, ln).reliability.score <= Fold(a, ln).reliability.score
    ensures Fold(b, ln).honesty.score <= Fold(a, ln).honesty.score
    ensures Fold(b, ln).coverage.score <= Fold(a, ln).coverage.score
    ensures Fold(b, ln).protocol == Fold(a, ln).protocol && Fold(b, ln).catalog == Fold(a, ln).catalog
    ensures Fold(b, ln).context.score == Fold(a, ln).context.score
  {
    SkippingAreas(a, b, ln);
    FoldOrder(b, a, ln);
  }

  // --------------------------------------------------------- no silent loss

  /** Every tool the battery may call has an exercise outcome. */
  ghost predicate Observed(tools: seq<Tool>) {
    forall t :: t in tools && Callable(t) ==> t.exercise.Some?
  }

  predicate Accounted(area: AreaScore) { area.score < 100 ==> area.checks != [] }

  lemma {:induction false} ProtocolAccounted(results: seq<ProtocolResult>)
    ensures Accounted(Protocol(results))
  {
    if results != [] && Protocol(results).checks == [] {
      FlatMapEmpty(results, ProtocolChecks);
      CountAll(results, PassedCheck);
      PercentRange(Count(results, PassedCheck), |results|);
    }
  }

  lemma {:induction false} FractionFull(t: Tool)
    requires CatalogChecks(t) == []
    ensures Fraction(t) == 100.0
  {
    FlatMapEmpty(FactsOf(t), FactChecks(t.name));
    forall f | f in FactsOf(t) ensures Holds(f) {
      assert FactChecks(t.name)(f) == [];
    }
    CountAll(FactsOf(t), Holds);
    PercentRange(Count(FactsOf(t), Holds), |FactsOf(t)|);
  }

  lemma {:induction false} FractionsFull(tools: seq<Tool>)
    requires tools != [] && forall t :: t in tools ==> Fraction(t) == 100.0
    ensures FlatMap(tools, Fractions) != [] && 100.0 <= Mean(FlatMap(tools, Fractions))
  {
    FlatMapAll(tools, Fractions, x => 100.0 <= x);
    FractionPerTool(tools);
    MeanAtLeast(FlatMap(tools, Fractions), 100.0);
  }

  lemma {:induction false} CatalogAccounted(tools: seq<Tool>)
    ensures Accounted(Catalog(tools))
  {
    if tools != [] && Catalog(tools).checks == [] {
      FlatMapEmpty(tools, CatalogChecks);
      forall t | t in tools ensures Fraction(t) == 100.0 {
        FractionFull(t);
      }
      FractionsFull(tools);
    }
  }

  lemma {:induction false} ContextAccounted(tools: seq<Tool>, ln: real -> real)
    requires Increasing(ln)
    ensures Accounted(Context(tools, ln))
  {
    var catalog := LogCurve(TotalTokens(tools), CATALOG_FULL_TOKENS, CATALOG_ZERO_TOKENS, ln);
    var tool := LogCurve(HeaviestTokens(tools), TOOL_FULL_TOKENS, TOOL_ZERO_TOKENS, ln);
    RoundsToFull(catalog);
    RoundsToFull(tool);
    RoundsToFull(0.75 * catalog + (1.0 - 0.75) * tool);
  }

  lemma {:induction false} HonestyAccounted(tools: seq<Tool>)
    ensures Accounted(ErrorHonesty(tools))
  {
    if Count(tools, Judged) > 0 && ErrorHonesty(tools).checks == [] {
      FlatMapEmpty(tools, HonestyChecks);
      forall i | 0 <= i < |tools| && Judged(tools[i]) ensures IsHonest(tools[i]) {
        assert HonestyChecks(tools[i]) == [];
      }
      CountMonotone(tools, Judged, tools, IsHonest);
      CountMonotone(tools, IsHonest, tools, Judged);
      PercentRange(Count(tools, IsHonest), Count(tools, Judged));
    }
  }

  /** A tool that lists no lost check earns at least 99.5. */
  lemma {:induction false} EntryFull(t: Tool, mode: Latency)
    requires ReliabilityChecks(mode)(t) == []
    ensures forall x :: x in Entries(mode)(t) ==> 99.5 <= x
  {
    if WasExercised(t) {
      var e := t.exercise.value;
      var success := SuccessRate(t.calls);
      RoundsToFull(success);
      NothingLost(t, mode);
      var parts := Parts(e, mode);
      assert forall x :: x in parts ==> x == 100.0;
      SumOfHundreds(parts);
      assert success / 100.0 * (100.0 * |parts| as real) == success * |parts| as real;
    }
  }

  lemma {:induction false} NothingLost(t: Tool, mode: Latency)
    requires WasExercised(t) && ExercisedChecks(t, mode) == []
    ensures Round(SuccessRate(t.calls)) == 100
    ensures Marks(t.exercise.value.consistent) == 100.0
    ensures LatencyMarks(t.exercise.value.medianMs, mode) == 100.0
    ensures t.exercise.value.conforms.Some? ==> Marks(t.exercise.value.conforms.value) == 100.0
  {
  }

  lemma {:induction false} SumOfHundreds(s: seq<real>)
    requires forall x :: x in s ==> x == 100.0
    ensures Sum(s) == 100.0 * |s| as real
  {
    if s != [] {
      var front := s[..|s| - 1];
      assert forall x :: x in front ==> x in s;
      assert s[|s| - 1] in s;
      SumOfHundreds(front);
    }
  }

  lemma {:induction false} ToolEntriesFull(tools: seq<Tool>, mode: Latency)
    requires FlatMap(tools, ReliabilityChecks(mode)) == []
    ensures forall x :: x in FlatMap(tools, Entries(mode)) ==> 99.5 <= x
  {
    FlatMapEmpty(tools, ReliabilityChecks(mode));
    forall t | t in tools ensures forall x :: x in Entries(mode)(t) ==> 99.5 <= x {
      EntryFull(t, mode);
    }
    FlatMapAll(tools, Entries(mode), x => 99.5 <= x);
  }

  lemma {:induction false} CaseEntriesFull(anySkipped: bool, outcome: Option<bool>, id: CheckId, why: Reason)
    requires CaseChecks(anySkipped, outcome, id, why) == []
    ensures forall x :: x in CaseEntries(anySkipped, outcome) ==> 99.5 <= x
  {
  }

  lemma {:induction false} EntriesFull(o: Observations, mode: Latency)
    requires AllReliabilityChecks(o, mode) == []
    ensures forall x :: x in AllEntries(o, mode) ==> 99.5 <= x
  {
    var skipped := AnySkipped(o.tools);
    ToolEntriesFull(o.tools, mode);
    CaseEntriesFull(skipped, o.contention, ReliabilityContention, ContentionFailed);
    CaseEntriesFull(skipped, o.payload, ReliabilityPayload, PayloadUnhandled);
  }

  lemma {:induction false} ReliabilityAccounted(o: Observations, mode: Latency)
    ensures Accounted(Reliability(o, mode))
  {
    if FlatMap(o.tools, Entries(mode)) != [] && Reliability(o, mode).checks == [] {
      EntriesFull(o, mode);
      MeanAtLeast(AllEntries(o, mode), 99.5);
      RoundsToFull(Mean(AllEntries(o, mode)));
    }
  }

  predicate Silent(t: Tool) { Callable(t) && t.calls.successful == 0 && t.exercise.None? }

  /** Coverage is the one area that can lose points and list nothing: when no
      tool with an outcome went uncovered, and more than one callable tool in
      two hundred has neither a success nor an outcome. */
  lemma {:induction false} CoverageSilentWhen(tools: seq<Tool>)
    ensures Accounted(Coverage(tools)) <==>
      !(FlatMap(tools, CoverageChecks) == [] && 200 * Count(tools, Silent) > Surface(tools))
  {
    var surface, covered, silent := Surface(tools), Count(tools, Covered), Count(tools, Silent);
    CountMonotone(tools, Silent, tools, Callable);
    if surface > 0 && FlatMap(tools, CoverageChecks) == [] {
      FlatMapEmpty(tools, CoverageChecks);
      forall t | t in tools && Callable(t) ensures Covered(t) || Silent(t) {
        assert CoverageChecks(t) == [];
      }
      Split(tools);
      assert covered + silent == surface;
      CoverageRounding(covered, silent, surface);
    }
  }

  lemma {:induction false} Split(tools: seq<Tool>)
    requires forall t :: t in tools && Callable(t) ==> Covered(t) || Silent(t)
    ensures Count(tools, Covered) + Count(tools, Silent) == Surface(tools)
  {
    if tools != [] {
      Split(tools[..|tools| - 1]);
    }
  }

  lemma {:induction false} CoverageRounding(covered: nat, silent: nat, surface: nat)
    requires covered + silent == surface && surface > 0
    ensures Round(Percent(covered, surface)) == 100 <==> 200 * silent <= surface
  {
    RoundsToFull(Percent(covered, surface));
    Divides(99.5, 100.0 * covered as real, surface as real);
  }

  lemma {:induction false} AreasAccounted(o: Observations, ln: real -> real)
    requires Increasing(ln) && Observed(o.tools)
    ensures Accounted(Protocol(o.protocol)) && Accounted(Catalog(o.tools)) && Accounted(Context(o.tools, ln))
    ensures Accounted(ErrorHonesty(o.tools)) && Accounted(Reliability(o, Banded)) && Accounted(Coverage(o.tools))
  {
    ProtocolAccounted(o.protocol);
    CatalogAccounted(o.tools);
    ContextAccounted(o.tools, ln);
    HonestyAccounted(o.tools);
    ReliabilityAccounted(o, Banded);
    CoverageSilentWhen(o.tools);
    CountNone(o.tools, Silent);
  }

  lemma {:induction false} LossListed(f: Readiness)
    requires Accounted(f.protocol) && Accounted(f.catalog) && Accounted(f.context)
    requires Accounted(f.honesty) && Accounted(f.reliability) && Accounted(f.coverage)
    requires f.score == Weighted(f.protocol.score, f.catalog.score, f.context.score, f.honesty.score,
                                 f.reliability.score, f.coverage.score)
    requires f.score <= f.withoutLatency
    ensures f.score < 100 || f.withoutLatency < 100 ==>
      f.protocol.checks + f.catalog.checks + f.context.checks + f.honesty.checks
      + f.reliability.checks + f.coverage.checks != []
  {
    if f.protocol.score >= 100 && f.catalog.score >= 100 && f.context.score >= 100
       && f.honesty.score >= 100 && f.reliability.score >= 100 && f.coverage.score >= 100 {
      WeightedMonotone(100, 100, 100, 100, 100, 100, f.protocol.score, f.catalog.score, f.context.score,
                       f.honesty.score, f.reliability.score, f.coverage.score);
      RoundsHundredths(10_000);
    }
  }

  /** Below full marks, every area lists a check that lost points, and so the
      overall score does too. */
  lemma {:induction false} NoSilentLoss(o: Observations, ln: real -> real)
    requires Increasing(ln) && Observed(o.tools)
    ensures
      var f := Fold(o, ln);
      && Accounted(f.protocol) && Accounted(f.catalog) && Accounted(f.context)
      && Accounted(f.honesty) && Accounted(f.reliability) && Accounted(f.coverage)
    ensures
      var f := Fold(o, ln);
      f.score < 100 || f.withoutLatency < 100 ==>
        f.protocol.checks + f.catalog.checks + f.context.checks + f.honesty.checks
        + f.reliability.checks + f.coverage.checks != []
  {
    AreasAccounted(o, ln);
    LatencyOnlyCosts(o, ln);
    LossListed(Fold(o, ln));
  }

  // ------------------------------------------------------- machine dependence

  lemma {:induction false} BandedEntries(t: Tool)
    ensures NoMore(Entries(Banded)(t), Entries(FullMarks)(t))
  {
    if WasExercised(t) {
      SuccessRange(t.calls);
      PartsRange(t.exercise.value, FullMarks);
      EntryMonotone(SuccessRate(t.calls), Parts(t.exercise.value, Banded), Parts(t.exercise.value, FullMarks));
    }
  }

  lemma {:induction false} BandedReliability(o: Observations)
    ensures Reliability(o, Banded).score <= Reliability(o, FullMarks).score
  {
    forall i | 0 <= i < |o.tools| ensures NoMore(Entries(Banded)(o.tools[i]), Entries(FullMarks)(o.tools[i])) {
      BandedEntries(o.tools[i]);
    }
    FlatMapMonotone(o.tools, Entries(Banded), o.tools, Entries(FullMarks));
    var b, f := FlatMap(o.tools, Entries(Banded)), FlatMap(o.tools, Entries(FullMarks));
    SumMonotone(b, f);
    var s := AnySkipped(o.tools);
    SumOfCases(b, CaseEntries(s, o.contention), CaseEntries(s, o.payload));
    SumOfCases(f, CaseEntries(s, o.contention), CaseEntries(s, o.payload));
    ReliabilityOrder(o, FullMarks, o, Banded);
  }

  /** Latency can only cost points. */
  lemma {:induction false} LatencyOnlyCosts(o: Observations, ln: real -> real)
    requires Increasing(ln)
    ensures Fold(o, ln).score <= Fold(o, ln).withoutLatency <= 100
  {
    BandedReliability(o);
    var p, c, x := Protocol(o.protocol).score, Catalog(o.tools).score, Context(o.tools, ln).score;
    var h, v := ErrorHonesty(o.tools).score, Coverage(o.tools).score;
    WeightedMonotone(p, c, x, h, Reliability(o, Banded).score, v, p, c, x, h, Reliability(o, FullMarks).score, v);
  }

  ghost predicate SameButLatency(t: Tool, u: Tool) {
    t == u
    || (WasExercised(t) && WasExercised(u)
        && u == t.(exercise := Some(t.exercise.value.(medianMs := u.exercise.value.medianMs))))
  }

  /** The latency-free score is the same on a machine of any speed. */
  lemma {:induction false} WithoutLatencyIsPortable(a: Observations, b: Observations, ln: real -> real)
    requires Increasing(ln)
    requires |a.tools| == |b.tools| && b == a.(tools := b.tools)
    requires forall i :: 0 <= i < |a.tools| ==> SameButLatency(a.tools[i], b.tools[i])
    ensures Fold(a, ln).withoutLatency == Fold(b, ln).withoutLatency
  {
    PortableReliability(a, b);
    SameCatalog(a.tools, b.tools);
    SameContext(a.tools, b.tools, ln);
    PortableShares(a.tools, b.tools);
  }

  lemma {:induction false} SameContext(a: seq<Tool>, b: seq<Tool>, ln: real -> real)
    requires Increasing(ln)
    requires |a| == |b| && forall i :: 0 <= i < |a| ==> a[i].tokens == b[i].tokens
    ensures Context(a, ln).score == Context(b, ln).score
  {
    WeightNeverPays(a, b, ln);
    WeightNeverPays(b, a, ln);
  }

  lemma {:induction false} PortableReliability(a: Observations, b: Observations)
    requires |a.tools| == |b.tools| && b == a.(tools := b.tools)
    requires forall i :: 0 <= i < |a.tools| ==> SameButLatency(a.tools[i], b.tools[i])
    ensures Reliability(a, FullMarks).score == Reliability(b, FullMarks).score
  {
    forall i | 0 <= i < |a.tools| ensures Entries(FullMarks)(a.tools[i]) == Entries(FullMarks)(b.tools[i]) {
      PortableEntry(a.tools[i], b.tools[i]);
    }
    FlatMapSame(a.tools, Entries(FullMarks), b.tools, Entries(FullMarks));
    SameSkips(a.tools, b.tools);
  }

  lemma {:induction false} PortableEntry(t: Tool, u: Tool)
    requires SameButLatency(t, u)
    ensures Entries(FullMarks)(t) == Entries(FullMarks)(u)
  {
    if t != u {
      assert Parts(t.exercise.value, FullMarks) == Parts(u.exercise.value, FullMarks);
    }
  }

  lemma {:induction false} PortableShares(a: seq<Tool>, b: seq<Tool>)
    requires |a| == |b| && forall i :: 0 <= i < |a| ==> SameButLatency(a[i], b[i])
    ensures ErrorHonesty(a).score == ErrorHonesty(b).score && Coverage(a).score == Coverage(b).score
  {
    SameCounts(a, b, Judged);
    SameCounts(a, b, IsHonest);
    SameCounts(a, b, Callable);
    SameCounts(a, b, Covered);
    HonestyOrder(a, b);
    HonestyOrder(b, a);
    CoverageOrder(a, b);
    CoverageOrder(b, a);
  }

  lemma {:induction false} SameSkips(a: seq<Tool>, b: seq<Tool>)
    requires |a| == |b| && forall i :: 0 <= i < |a| ==> SameButLatency(a[i], b[i])
    ensures AnySkipped(a) == AnySkipped(b)
  {
    if AnySkipped(a) {
      var i :| 0 <= i < |a| && Skipped(a[i]);
      assert b[i] in b;
    }
    if AnySkipped(b) {
      var i :| 0 <= i < |b| && Skipped(b[i]);
      assert a[i] in a;
    }
  }

  // ------------------------------------------------------ what a score means

  lemma {:induction false} RoundsHundredths(n: nat)
    requires n <= 10_000
    ensures Round(n as real / 100.0) == (n + 50) / 100
  {
    var q := (n + 50) / 100;
    assert q as real <= n as real / 100.0 + 0.5 < (q + 1) as real;
  }

  /** The score moves with the areas, each by its weight in hundredths: to within
      a point, and to the point when the hundredths add up to whole ones. */
  lemma {:induction false} AreaCostsItsWeight(p: nat, c: nat, x: nat, h: nat, r: nat, v: nat,
                                              p': nat, c': nat, x': nat, h': nat, r': nat, v': nat)
    requires p <= 100 && c <= 100 && x <= 100 && h <= 100 && r <= 100 && v <= 100
    requires p' <= 100 && c' <= 100 && x' <= 100 && h' <= 100 && r' <= 100 && v' <= 100
    ensures
      var cost := 15 * (p - p') + 20 * (c - c') + 15 * (x - x') + 15 * (h - h') + 20 * (r - r') + 15 * (v - v');
      var moved := 100 * (Weighted(p, c, x, h, r, v) - Weighted(p', c', x', h', r', v'));
      && cost - 100 < moved < cost + 100
      && (cost % 100 == 0 ==> moved == cost)
    ensures Weighted(100, 100, 100, 100, 100, 100) == 100
  {
    RoundsHundredths(15 * p + 20 * c + 15 * x + 15 * h + 20 * r + 15 * v);
    RoundsHundredths(15 * p' + 20 * c' + 15 * x' + 15 * h' + 20 * r' + 15 * v');
    RoundsHundredths(10_000);
  }

  /** Light catalogs score full marks for context and heavy ones nothing; three
      quarters hang on the catalog's total, the rest on its heaviest tool. */
  lemma {:induction false} ContextAnchors(tools: seq<Tool>, ln: real -> real)
    requires Increasing(ln)
    ensures TotalTokens(tools) <= CATALOG_FULL_TOKENS && HeaviestTokens(tools) <= TOOL_FULL_TOKENS ==>
      Context(tools, ln).score == 100 && Context(tools, ln).checks == []
    ensures TotalTokens(tools) >= CATALOG_ZERO_TOKENS && HeaviestTokens(tools) <= TOOL_FULL_TOKENS ==>
      Context(tools, ln).score == 25
    ensures TotalTokens(tools) >= CATALOG_ZERO_TOKENS && HeaviestTokens(tools) >= TOOL_ZERO_TOKENS ==>
      Context(tools, ln).score == 0
  {
  }

  lemma {:induction false} FlatMapMember<T, U>(s: seq<T>, f: T -> seq<U>, y: U)
    ensures y in FlatMap(s, f) <==> exists i :: 0 <= i < |s| && y in f(s[i])
  {
    if s != [] {
      var n := |s| - 1;
      FlatMapMember(s[..n], f, y);
      assert y in FlatMap(s, f) <==> y in FlatMap(s[..n], f) || y in f(s[n]);
      if i :| 0 <= i < n && y in f(s[..n][i]) {
        assert y in f(s[i]);
      }
      if i :| 0 <= i < |s| && y in f(s[i]) {
        assert i < n ==> y in f(s[..n][i]);
      }
    }
  }

  /** The catalog area lists exactly the facts its tools fail, each against its
      tool and at nothing. */
  lemma {:induction false} CatalogListsFailures(tools: seq<Tool>, c: Check)
    requires tools != []
    ensures c in Catalog(tools).checks <==>
      exists i :: 0 <= i < |tools| && FailsFact(tools[i], c)
  {
    FlatMapMember(tools, CatalogChecks, c);
    forall i | 0 <= i < |tools| ensures c in CatalogChecks(tools[i]) <==> FailsFact(tools[i], c) {
      ToolListsFailures(tools[i], c);
    }
  }

  predicate FailsFact(t: Tool, c: Check) {
    exists j :: 0 <= j < |FactsOf(t)| && Reports(t, FactsOf(t)[j], c)
  }

  predicate Reports(t: Tool, f: Fact, c: Check) {
    !f.passed && c == Check(f.id, Some(t.name), 0, f.observed, f.why)
  }

  lemma {:induction false} ToolListsFailures(t: Tool, c: Check)
    ensures c in CatalogChecks(t) <==> FailsFact(t, c)
  {
    var facts := FactsOf(t);
    FlatMapMember(facts, FactChecks(t.name), c);
    forall j | 0 <= j < |facts| ensures c in FactChecks(t.name)(facts[j]) <==> Reports(t, facts[j], c) {
      assert Round(0.0) == 0;
    }
  }
}
