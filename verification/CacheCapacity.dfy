/**
 How the cache divides its capacity between staged and restored objects: once from the
 configured ratios, and again at every write for the capacity that is then observed.
 */
module CacheCapacity {
  import opened Basics

  function Clamp(ratio: real): real { if ratio < 0.0 then 0.0 else if ratio > 1.0 then 1.0 else ratio }

  /** The configured split; ratios are exact here. */
  function SplitByRatio(total: nat, stagingRatio: real, restoredRatio: real): (nat, nat) {
    var staging, restored := Clamp(stagingRatio), Clamp(restoredRatio);
    if staging + restored == 0.0 then (0, total) else
      var share := staging / (staging + restored);
      assert 0.0 <= share <= 1.0 by { Fraction(staging, staging + restored); }
      var bytes := (total as real * share).Floor;
      assert bytes >= 0;
      (bytes, SatSub(total, bytes))
  }

  lemma Fraction(part: real, whole: real)
    requires 0.0 <= part <= whole && whole > 0.0
    ensures 0.0 <= part / whole <= 1.0
  {}

  lemma RatioSplitSums(total: nat, stagingRatio: real, restoredRatio: real)
    ensures var (s, r) := SplitByRatio(total, stagingRatio, restoredRatio); s + r == total
  {
    var staging, restored := Clamp(stagingRatio), Clamp(restoredRatio);
    if staging + restored != 0.0 {
      Fraction(staging, staging + restored);
      var share := staging / (staging + restored);
      assert total as real * share <= total as real;
    }
  }

  /** The split of the observed capacity in the configured proportion, in u64 arithmetic. */
  function Split(total: nat, staging: nat, restored: nat): (nat, nat) {
    var configured := SatAdd(staging, restored);
    if configured == 0 then (0, total) else
      var s := SatMul(total, staging) / configured;
      (s, SatSub(total, s))
  }

  lemma DivideMonotone(a: nat, b: nat, d: nat)
    requires a <= b && d > 0
    ensures a / d <= b / d
  {
    if b / d < a / d {
      NextMultiple(d, b / d, a / d);
      Quotient(a, d);
      Quotient(b, d);
    }
  }

  lemma NextMultiple(d: nat, x: nat, y: nat)
    requires x < y
    ensures d * x + d <= d * y
  {
    assert d * (x + 1) <= d * y;
  }

  lemma Quotient(a: nat, d: nat)
    requires d > 0
    ensures d * (a / d) <= a < d * (a / d) + d
  {}

  lemma DivideBounded(total: nat, part: nat, whole: nat)
    requires part <= whole && whole > 0
    ensures total * part / whole <= total
  {
    assert total * part <= total * whole;
    DivideMonotone(total * part, total * whole, whole);
    assert total * whole / whole == total by { DivideExact(total, whole); }
  }

  lemma DivideExact(q: nat, d: nat)
    requires d > 0
    ensures q * d / d == q
  {
    var r := q * d / d;
    if r < q {
      NextMultiple(d, r, q);
      Quotient(q * d, d);
    }
  }

  /**
   The budgets sum to the total; the staging budget never exceeds the exact proportional
   floor and equals it when the product fits in 64 bits.
   */
  lemma SplitIsProportional(total: nat, staging: nat, restored: nat)
    requires 0 < staging + restored <= U64_MAX
    ensures var (s, r) := Split(total, staging, restored);
            && s + r == total
            && s <= total * staging / (staging + restored)
            && (total * staging <= U64_MAX ==> s == total * staging / (staging + restored))
  {
    DivideMonotone(SatMul(total, staging), total * staging, staging + restored);
    DivideBounded(total, staging, staging + restored);
  }

  /** When the observed total is the configured sum, the configured split comes back. */
  lemma SplitRecoversConfiguration(staging: nat, restored: nat)
    requires 0 < staging + restored <= U64_MAX && (staging + restored) * staging <= U64_MAX
    ensures Split(staging + restored, staging, restored) == (staging, restored)
  {
    var whole := staging + restored;
    SplitIsProportional(whole, staging, restored);
    DivideExact(staging, whole);
    assert whole * staging == staging * whole;
  }

  /** With any configured ratios the observed budgets always sum to the observed total. */
  lemma BudgetsSumToTotal(configured: nat, stagingRatio: real, restoredRatio: real, total: nat)
    requires configured <= U64_MAX
    ensures var (staging, restored) := SplitByRatio(configured, stagingRatio, restoredRatio);
            var (s, r) := Split(total, staging, restored);
            s + r == total
  {
    RatioSplitSums(configured, stagingRatio, restoredRatio);
    var (staging, restored) := SplitByRatio(configured, stagingRatio, restoredRatio);
    if staging + restored > 0 {
      SplitIsProportional(total, staging, restored);
    }
  }

  /** The clipped product shows: with large capacities the staging budget falls below its share. */
  lemma ClippedProduct()
    ensures var half := 0x8000_0000_0000;
            Split(2 * half, half, half).0 < 2 * half * half / (half + half)
  {
    var half := 0x8000_0000_0000;
    DivideExact(half, 2 * half);
    assert 2 * half * half == half * (2 * half);
  }
}
