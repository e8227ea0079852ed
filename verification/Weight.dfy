/** The request-to-weight formula, in the 64-bit signed arithmetic it is computed in. */
module Weight {
  const MIN_INT64: int := -0x8000_0000_0000_0000
  const MAX_INT64: int := 0x7FFF_FFFF_FFFF_FFFF
  const MIN_SHARES := 2
  const MAX_SHARES := 262144
  const WEIGHT_NUMERATOR := 9999
  const WEIGHT_DENOMINATOR := 262142

  predicate IsInt64(n: int) {
    MIN_INT64 <= n <= MAX_INT64
  }

  /** Two's complement wrap-around. */
  function WrapInt64(n: int): (r: int)
    ensures IsInt64(r) && (n - r) % 0x1_0000_0000_0000_0000 == 0 && (IsInt64(n) ==> r == n)
  {
    var m := n % 0x1_0000_0000_0000_0000;
    if m > MAX_INT64 then m - 0x1_0000_0000_0000_0000 else m
  }

  /** Division that truncates toward zero. */
  function TruncDiv(a: int, b: int): int
    requires b > 0
  {
    if a >= 0 then a / b else -(-a / b)
  }

  /** The clamped shares and their weight; every product here is far inside 64 bits. */
  function SharesToWeight(shares: int): int {
    var s := if shares < MIN_SHARES then MIN_SHARES else shares;
    var t := if s > MAX_SHARES then MAX_SHARES else s;
    1 + (t - MIN_SHARES) * WEIGHT_NUMERATOR / WEIGHT_DENOMINATOR
  }

  /** RestoreWeight, for the pod's CPU request in thousandths of a CPU. */
  function RestoreWeight(bestEffort: bool, milliCPU: int): int
    requires IsInt64(milliCPU)
  {
    if bestEffort then 1 else SharesToWeight(TruncDiv(WrapInt64(milliCPU * 1024), 1000))
  }

  /** The shares of a request, by the documented formula: milliCPU * 1024 / 1000, at least 2 and at most 262144. */
  predicate FormulaShares(milliCPU: int, shares: int) {
    && 2 <= shares <= 262144
    && (shares > 2 ==> shares * 1000 <= milliCPU * 1024)
    && (shares < 262144 ==> milliCPU * 1024 < (shares + 1) * 1000)
  }

  /** The documented weight of a request, on unbounded integers: 1 + (shares - 2) * 9999 / 262142, rounded down. */
  ghost predicate FormulaWeight(milliCPU: int, weight: int) {
    exists shares :: FormulaShares(milliCPU, shares) && WeightOfShares(shares, weight)
  }

  predicate WeightOfShares(shares: int, weight: int) {
    (weight - 1) * 262142 <= (shares - 2) * 9999 < weight * 262142
  }

  /** What the code computes from its shares is the quotient, rounded down. */
  lemma SharesToWeightRoundsDown(shares: int)
    ensures WeightOfShares(if shares < 2 then 2 else if shares > 262144 then 262144 else shares, SharesToWeight(shares))
  {
  }

  /** The formula gives every request exactly one weight. */
  lemma FormulaIsFunction(milliCPU: int, weight: int)
    ensures FormulaWeight(milliCPU, weight) <==> weight == SharesToWeight(TruncDiv(milliCPU * 1024, 1000))
  {
    var shares := TruncDiv(milliCPU * 1024, 1000);
    var clamped := if shares < 2 then 2 else if shares > 262144 then 262144 else shares;
    SharesToWeightRoundsDown(shares);
    assert FormulaShares(milliCPU, clamped);
    forall s | FormulaShares(milliCPU, s)
      ensures s == clamped
    {
    }
  }

  lemma SharesToWeightMonotone(a: int, b: int)
    requires a <= b
    ensures SharesToWeight(a) <= SharesToWeight(b)
  {
  }

  /** The ends of the weight range, exactly. */
  lemma SharesToWeightEnds(shares: int)
    ensures 1 <= SharesToWeight(shares) <= 10000
    ensures SharesToWeight(shares) == 1 <==> shares <= 28
    ensures SharesToWeight(shares) == 10000 <==> shares >= 262144
  {
    if shares > 28 {
      SharesToWeightMonotone(29, shares);
    } else {
      SharesToWeightMonotone(shares, 28);
    }
    if shares >= MAX_SHARES {
    } else {
      SharesToWeightMonotone(shares, MAX_SHARES - 1);
    }
  }

  /** Every request, wrapped or not, restores a weight the kernel accepts and a snapshot can show. */
  lemma WeightInRange(bestEffort: bool, milliCPU: int)
    requires IsInt64(milliCPU)
    ensures 1 <= RestoreWeight(bestEffort, milliCPU) <= 10000
  {
    SharesToWeightEnds(TruncDiv(WrapInt64(milliCPU * 1024), 1000));
  }

  /** A larger request never restores a smaller weight, as long as neither product wraps. */
  lemma WeightMonotone(a: int, b: int)
    requires IsInt64(a) && IsInt64(b) && a <= b
    requires IsInt64(a * 1024) && IsInt64(b * 1024)
    ensures RestoreWeight(false, a) <= RestoreWeight(false, b)
  {
    SharesToWeightMonotone(TruncDiv(a * 1024, 1000), TruncDiv(b * 1024, 1000));
  }

  /** Exactly when the code computes the documented formula: the product fits, or its wrapped value
      happens to clamp to the same end of the range. */
  lemma WeightMatchesFormula(milliCPU: int)
    requires IsInt64(milliCPU)
    ensures RestoreWeight(true, milliCPU) == 1
    ensures FormulaWeight(milliCPU, RestoreWeight(false, milliCPU))
       <==> || IsInt64(milliCPU * 1024)
            || (milliCPU > 0 && WrapInt64(milliCPU * 1024) >= MAX_SHARES * 1000)
            || (milliCPU < 0 && WrapInt64(milliCPU * 1024) < 29000)
  {
    FormulaIsFunction(milliCPU, RestoreWeight(false, milliCPU));
    SharesToWeightEnds(TruncDiv(WrapInt64(milliCPU * 1024), 1000));
    SharesToWeightEnds(TruncDiv(milliCPU * 1024, 1000));
  }

  /** The smallest request whose product wraps restores the lowest weight instead of the highest. */
  lemma WrappedRequest()
    ensures RestoreWeight(false, 0x20_0000_0000_0000) == 1 && FormulaWeight(0x20_0000_0000_0000, 10000)
  {
    FormulaIsFunction(0x20_0000_0000_0000, 10000);
    SharesToWeightEnds(TruncDiv(0x20_0000_0000_0000 * 1024, 1000));
  }
}
