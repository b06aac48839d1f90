/** Rust orders strings by their UTF-8 bytes, which is code-point order. */
module StringOrder {
  predicate Le(a: string, b: string) {
    if a == "" then true
    else if b == "" then false
    else if a[0] != b[0] then a[0] < b[0]
    else Le(a[1..], b[1..])
  }

  /** The order position by position: one is the start of the other, or they
      agree up to a first difference and the smaller one is smaller there. */
  ghost predicate ComesFirst(a: string, b: string) {
    || (|a| <= |b| && a == b[..|a|])
    || exists k :: 0 <= k < |a| && k < |b| && a[..k] == b[..k] && a[k] < b[k]
  }

  lemma {:induction false} LeMeans(a: string, b: string)
    ensures Le(a, b) <==> ComesFirst(a, b)
  {
    if a != "" && b != "" {
      if a[0] == b[0] {
        LeMeans(a[1..], b[1..]);
        TailFirst(a, b);
      } else if a[0] < b[0] {
        assert a[..0] == b[..0];
      } else {
        forall k | 0 <= k < |a| && k < |b| && a[..k] == b[..k] ensures k == 0 {
          StartsAgree(a, b, k);
        }
        assert |a| <= |b| ==> a[0] != b[..|a|][0];
      }
    }
  }

  lemma {:induction false} StartsAgree(a: string, b: string, k: nat)
    requires k <= |a| && k <= |b| && a[..k] == b[..k]
    ensures k > 0 ==> a[0] == b[0]
  {
    if k > 0 {
      assert a[..k][0] == b[..k][0];
    }
  }

  lemma {:induction false} TailFirst(a: string, b: string)
    requires a != "" && b != "" && a[0] == b[0]
    ensures ComesFirst(a, b) <==> ComesFirst(a[1..], b[1..])
  {
    var x, y := a[1..], b[1..];
    assert a == [a[0]] + x && b == [b[0]] + y;
    forall k | 0 <= k <= |x| && k <= |y| ensures a[..k + 1] == b[..k + 1] <==> x[..k] == y[..k] {
      assert a[..k + 1] == [a[0]] + x[..k] && b[..k + 1] == [b[0]] + y[..k];
      assert a[..k + 1][1..] == x[..k] && b[..k + 1][1..] == y[..k];
    }
    assert |a| <= |b| ==> a[..|a|] == a && x[..|x|] == x;
    if k :| 0 <= k < |a| && k < |b| && a[..k] == b[..k] && a[k] < b[k] {
      assert k > 0;
      assert x[..k - 1] == y[..k - 1] && x[k - 1] < y[k - 1];
    }
    if k :| 0 <= k < |x| && k < |y| && x[..k] == y[..k] && x[k] < y[k] {
      assert a[..k + 1] == b[..k + 1] && a[k + 1] < b[k + 1];
    }
  }

  lemma {:induction false} Total(a: string, b: string)
    ensures Le(a, b) || Le(b, a)
  {
    if a != "" && b != "" && a[0] == b[0] {
      Total(a[1..], b[1..]);
    }
  }

  lemma {:induction false} Reflexive(a: string)
    ensures Le(a, a)
  {
    Total(a, a);
  }

  lemma {:induction false} Transitive(a: string, b: string, c: string)
    requires Le(a, b) && Le(b, c)
    ensures Le(a, c)
  {
    if a != "" && c != "" && a[0] == b[0] && b[0] == c[0] {
      Transitive(a[1..], b[1..], c[1..]);
    }
  }

  lemma {:induction false} Antisymmetric(a: string, b: string)
    requires Le(a, b) && Le(b, a)
    ensures a == b
  {
    if a != "" && b != "" {
      Antisymmetric(a[1..], b[1..]);
      assert a == [a[0]] + a[1..] && b == [b[0]] + b[1..];
    }
  }
}
