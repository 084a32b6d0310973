/** The progress throttle (progress.rs), saturating arithmetic included. */
module Throttle {
  import opened Wrappers
  import opened Digits

  function SatMul100(n: nat): nat {
    if n * 100 > U64_MAX then U64_MAX else n * 100
  }

  // Integer percentage of `total`; 100 means at or past the total.
  function Percent(total: nat, cum: nat): nat {
    if total == 0 || cum >= total then 100 else SatMul100(cum) / total
  }

  lemma DivMonotone(a: nat, b: nat, d: nat)
    requires a <= b && d > 0
    ensures a / d <= b / d
  {
    assert a == (a / d) * d + a % d;
    assert b == (b / d) * d + b % d;
    if b / d < a / d {
      MultipleApart(b / d, a / d, d);
    }
  }

  lemma DivBelow100(a: nat, d: nat)
    requires d > 0 && a < 100 * d
    ensures a / d < 100
  {
  }

  // Short of the total the percentage stays below 100, even where the
  // multiplication saturates; and it never decreases.
  lemma {:induction false} PercentFacts(total: nat, a: nat, b: nat)
    requires total <= U64_MAX && a <= b
    ensures Percent(total, a) <= Percent(total, b) <= 100
    ensures Percent(total, b) == 100 <==> total == 0 || b >= total
  {
    if total > 0 && b < total {
      DivBelow100(SatMul100(b), total);
      DivMonotone(SatMul100(a), SatMul100(b), total);
    } else if total > 0 && a < total {
      DivBelow100(SatMul100(a), total);
    }
  }

  class ProgressThrottle {
    const total: nat
    var lastPct: int

    constructor (total: nat)
      ensures this.total == total && lastPct == -1
    {
      this.total := total;
      lastPct := -1;
    }

    method ShouldEmit(cum: nat) returns (emit: bool)
      modifies this
      ensures lastPct == Percent(total, cum)
      ensures emit <==> Percent(total, cum) != old(lastPct)
    {
      var pct: int := Percent(total, cum);
      emit := pct != lastPct;
      if emit {
        lastPct := pct;
      }
    }
  }

  predicate NonDecreasing(cums: seq<nat>) {
    forall i, j :: 0 <= i <= j < |cums| ==> cums[i] <= cums[j]
  }

  // The percentages admitted when the throttle sees `cums` in turn.
  function Emitted(total: nat, cums: seq<nat>): seq<nat> {
    if cums == [] then []
    else
      var n := |cums| - 1;
      var prev := Emitted(total, cums[..n]);
      if Percent(total, cums[n]) != Last(total, cums[..n]) then prev + [Percent(total, cums[n])] else prev
  }

  function Last(total: nat, cums: seq<nat>): int {
    if cums == [] then -1 else Percent(total, cums[|cums| - 1])
  }

  lemma {:induction false} EmittedShape(total: nat, cums: seq<nat>)
    requires total <= U64_MAX && NonDecreasing(cums)
    ensures var e := Emitted(total, cums);
            && (forall i, j :: 0 <= i < j < |e| ==> e[i] < e[j])
            && (forall i :: 0 <= i < |e| ==> e[i] <= Last(total, cums) && e[i] <= 100)
            && (cums != [] ==> e != [] && e[|e| - 1] == Last(total, cums))
  {
    if cums != [] {
      var n := |cums| - 1;
      EmittedShape(total, cums[..n]);
      PercentFacts(total, cums[n], cums[n]);
      if n > 0 {
        PercentFacts(total, cums[n - 1], cums[n]);
      }
    }
  }

  lemma {:induction false} AscendingBound(e: seq<nat>)
    requires forall i, j :: 0 <= i < j < |e| ==> e[i] < e[j]
    ensures e != [] ==> |e| <= e[|e| - 1] + 1
  {
    if |e| > 1 {
      AscendingBound(e[..|e| - 1]);
    }
  }

  // Strictly increasing percentages, at most 101 of them, and the final tick
  // exactly once if the total is ever reached, otherwise never.
  lemma {:induction false} ThrottleGuarantee(total: nat, cums: seq<nat>)
    requires total <= U64_MAX && NonDecreasing(cums)
    ensures var e := Emitted(total, cums);
            && (forall i, j :: 0 <= i < j < |e| ==> e[i] < e[j]) && |e| <= 101
            && ((exists i :: 0 <= i < |e| && e[i] == 100) <==> cums != [] && (total == 0 || cums[|cums| - 1] >= total))
  {
    var e := Emitted(total, cums);
    EmittedShape(total, cums);
    AscendingBound(e);
    if cums != [] {
      PercentFacts(total, cums[|cums| - 1], cums[|cums| - 1]);
    }
  }

  // The object admits exactly the specified percentages.
  method Watch(total: nat, cums: seq<nat>) returns (emitted: seq<nat>)
    ensures emitted == Emitted(total, cums)
  {
    var t := new ProgressThrottle(total);
    emitted := [];
    for k := 0 to |cums|
      invariant t.total == total && t.lastPct == Last(total, cums[..k]) && emitted == Emitted(total, cums[..k])
      invariant fresh(t)
    {
      var emit := t.ShouldEmit(cums[k]);
      assert cums[..k + 1][..k] == cums[..k];
      if emit {
        emitted := emitted + [Percent(total, cums[k])];
      }
    }
    assert cums[..|cums|] == cums;
  }
}
