/** The gross amount for a wanted net amount: `calculate_pre_fee_amount` against `calculate_post_fee_amount`. */
module InverseFees {
  import opened Base
  import opened TokenState
  import opened TransferFees

  /** `calculate_post_fee_amount`. */
  function PostFee(f: Fee, amount: u64): Option<u64> {
    var fee := CalculateFee(f, amount);
    if fee.Some? && fee.value <= amount then Some(amount - fee.value) else None
  }

  /** The gross amount before the cap: the net amount over what a full unit leaves. */
  function RawGross(f: Fee, net: u64): nat
    requires f.basisPoints < MAX_FEE_BASIS_POINTS
  {
    CeilDiv(net * MAX_FEE_BASIS_POINTS, MAX_FEE_BASIS_POINTS - f.basisPoints)
  }

  /** `calculate_pre_fee_amount`. A rate above the whole makes the subtraction fail. */
  function PreFee(f: Fee, net: u64): Option<u64> {
    if f.basisPoints == 0 then Some(net)
    else if f.basisPoints == MAX_FEE_BASIS_POINTS || net == 0 then Some(0)
    else if f.basisPoints > MAX_FEE_BASIS_POINTS then None
    else
      var raw := RawGross(f, net);
      if raw < net then None
      else if raw - net >= f.maximumFee then
        if net + f.maximumFee <= U64_MAX then Some(net + f.maximumFee) else None
      else if raw <= U64_MAX then Some(raw)
      else None
  }

  // ---- the arithmetic ----

  lemma CeilDivTight(n: nat, d: nat)
    requires d > 0
    ensures n <= CeilDiv(n, d) * d < n + d
  {
    var m := n + d - 1;
    assert m == d * (m / d) + m % d;
  }

  /** What is left of `x` after the uncapped fee, `kept` being `x` times the part the rate leaves. */
  lemma NetIsFloor(x: nat, taken: nat, kept: nat)
    requires taken + kept == x * MAX_FEE_BASIS_POINTS
    ensures x - CeilDiv(taken, MAX_FEE_BASIS_POINTS) == kept / MAX_FEE_BASIS_POINTS
  {
    assert CeilDiv(taken, MAX_FEE_BASIS_POINTS) == (taken + 9_999) / 10_000;
  }

  /** Ten thousandths of `x` that the rate leaves. */
  function Kept(f: Fee, x: nat): nat
    requires LegalFee(f)
  {
    x * (MAX_FEE_BASIS_POINTS - f.basisPoints)
  }

  lemma Split(f: Fee, x: nat)
    requires LegalFee(f)
    ensures x * f.basisPoints + Kept(f, x) == x * MAX_FEE_BASIS_POINTS
  {}

  lemma Grows(x: nat, y: nat, d: nat)
    ensures x <= y ==> x * d <= y * d
    ensures x < y ==> x * d + d <= y * d
  {
    if x < y { assert (x + 1) * d <= y * d; }
  }

  /** The net amount of a legal rate below the whole: the uncapped net, or the amount less the cap if that is more. */
  lemma PostFeeIs(f: Fee, x: u64)
    requires LegalFee(f)
    ensures var uncapped := Kept(f, x) / MAX_FEE_BASIS_POINTS;
            PostFee(f, x) == Some(if x - uncapped <= f.maximumFee then uncapped else x - f.maximumFee)
  {
    Split(f, x);
    PostFeeWith(f, x, x * f.basisPoints, Kept(f, x));
  }

  lemma PostFeeWith(f: Fee, x: u64, taken: nat, kept: nat)
    requires LegalFee(f) && taken == x * f.basisPoints && taken + kept == x * MAX_FEE_BASIS_POINTS
    ensures var uncapped := kept / MAX_FEE_BASIS_POINTS;
            PostFee(f, x) == Some(if x - uncapped <= f.maximumFee then uncapped else x - f.maximumFee)
  {
    FeeIsCapped(f, x, taken);
    NetIsFloor(x, taken, kept);
    var raw := CeilDiv(taken, MAX_FEE_BASIS_POINTS);
    PostFeeOf(f, x, if raw <= f.maximumFee then raw else f.maximumFee);
  }

  lemma PostFeeOf(f: Fee, x: u64, fee: u64)
    requires CalculateFee(f, x) == Some(fee) && fee <= x
    ensures PostFee(f, x) == Some(x - fee)
  {}

  lemma FeeIsCapped(f: Fee, x: u64, taken: nat)
    requires LegalFee(f) && taken == x * f.basisPoints
    ensures var raw := CeilDiv(taken, MAX_FEE_BASIS_POINTS);
            raw <= x && CalculateFee(f, x) == Some(if raw <= f.maximumFee then raw else f.maximumFee)
  {
    MulMonotone(x, f.basisPoints, MAX_FEE_BASIS_POINTS);
    RawFeeWithin(taken, x);
    if f.basisPoints == 0 || x == 0 { assert CeilDiv(0, MAX_FEE_BASIS_POINTS) == 0; }
  }

  /** The raw gross amount is the least whose uncapped net reaches the wanted one, and reaches it exactly. */
  lemma RawGrossLeast(f: Fee, net: u64, x: nat)
    requires f.basisPoints < MAX_FEE_BASIS_POINTS
    ensures Kept(f, RawGross(f, net)) / MAX_FEE_BASIS_POINTS == net
    ensures x < RawGross(f, net) ==> Kept(f, x) / MAX_FEE_BASIS_POINTS < net
    ensures net <= RawGross(f, net)
  {
    var kept, raw := MAX_FEE_BASIS_POINTS - f.basisPoints, RawGross(f, net);
    CeilDivTight(net * MAX_FEE_BASIS_POINTS, kept);
    Grows(x, raw, kept);
    Grows(raw, net, kept);
    assert raw < net ==> raw * kept <= net * kept - kept;
    assert net * kept <= net * MAX_FEE_BASIS_POINTS;
  }

  // ---- the inverse ----

  lemma PreFeeBelowWhole(f: Fee, net: u64)
    requires f.basisPoints < MAX_FEE_BASIS_POINTS && PreFee(f, net).Some?
    ensures PostFee(f, PreFee(f, net).value) == Some(net)
  {
    if f.basisPoints != 0 && net != 0 {
      var gross := PreFee(f, net).value;
      RawGrossLeast(f, net, gross);
      PostFeeIs(f, gross);
    }
  }

  /** The gross amount nets what was asked for, except at the full rate, where any wanted amount is answered with
      zero. */
  lemma PreFeeExactly(f: Fee, net: u64)
    requires LegalFee(f) && PreFee(f, net).Some?
    ensures PostFee(f, PreFee(f, net).value) == Some(net)
       <==> f.basisPoints < MAX_FEE_BASIS_POINTS || net == 0
  {
    if f.basisPoints < MAX_FEE_BASIS_POINTS { PreFeeBelowWhole(f, net); }
  }

  /** It is the least amount that does, and when there is none there is no amount at all. */
  lemma PreFeeLeast(f: Fee, net: u64, x: u64)
    requires f.basisPoints < MAX_FEE_BASIS_POINTS && PostFee(f, x) == Some(net)
    ensures PreFee(f, net).Some? && PreFee(f, net).value <= x
  {
    PostFeeIs(f, x);
    if f.basisPoints == 0 {
      assert Kept(f, x) / MAX_FEE_BASIS_POINTS == x;
    } else if net != 0 {
      RawGrossLeast(f, net, x);
    }
  }

  /** At the full rate the capped fee still leaves every amount within reach: the answer zero is wrong for each of
      them. */
  lemma FullRateMisses(f: Fee, net: u64)
    requires f.basisPoints == MAX_FEE_BASIS_POINTS && net > 0 && net + f.maximumFee <= U64_MAX
    ensures PreFee(f, net) == Some(0) && PostFee(f, 0) == Some(0)
    ensures PostFee(f, net + f.maximumFee) == Some(net)
  {
    PostFeeIs(f, net + f.maximumFee);
  }
}
