/** The transfer-fee arithmetic of `extension/transfer_fee/mod.rs`. */
module TransferFees {
  import opened Base
  import opened TokenState

  const MAX_FEE_BASIS_POINTS := 10_000

  function CeilDiv(numerator: nat, denominator: nat): nat
    requires denominator > 0
  {
    (numerator + denominator - 1) / denominator
  }

  function CalculateFee(f: Fee, amount: u64): (r: Option<u64>) {
    if f.basisPoints == 0 || amount == 0 then Some(0)
    else
      var raw := CeilDiv(amount * f.basisPoints, MAX_FEE_BASIS_POINTS);
      if raw > U64_MAX then None
      else Some(if raw <= f.maximumFee then raw else f.maximumFee)
  }

  function EpochFee(c: FeeConfig, epoch: u64): Fee {
    if epoch >= c.newer.epoch then c.newer else c.older
  }

  function CalculateEpochFee(c: FeeConfig, epoch: u64, amount: u64): Option<u64> {
    CalculateFee(EpochFee(c, epoch), amount)
  }

  predicate LegalFee(f: Fee) { f.basisPoints <= MAX_FEE_BASIS_POINTS }
  predicate LegalConfig(c: FeeConfig) { LegalFee(c.older) && LegalFee(c.newer) }

  lemma MulMonotone(a: nat, x: nat, y: nat)
    requires x <= y
    ensures a * x <= a * y
  {}

  lemma RawFeeWithin(numerator: nat, amount: nat)
    requires numerator <= amount * MAX_FEE_BASIS_POINTS
    ensures CeilDiv(numerator, MAX_FEE_BASIS_POINTS) <= amount
  {
    assert CeilDiv(numerator, MAX_FEE_BASIS_POINTS) == (numerator + 9_999) / 10_000;
  }

  /** A legal rate never overflows, never exceeds its cap and never takes more than the amount moved. */
  lemma FeeWithinAmount(f: Fee, amount: u64)
    requires LegalFee(f) || amount == 0
    ensures CalculateFee(f, amount).Some?
    ensures CalculateFee(f, amount).value <= amount
    ensures CalculateFee(f, amount).value <= f.maximumFee
  {
    if f.basisPoints != 0 && amount != 0 {
      MulMonotone(amount, 0, f.basisPoints);
      MulMonotone(amount, f.basisPoints, MAX_FEE_BASIS_POINTS);
      RawFeeWithin(amount * f.basisPoints, amount);
    }
  }

  lemma CeilDivBounds(n: nat)
    ensures n <= CeilDiv(n, MAX_FEE_BASIS_POINTS) * MAX_FEE_BASIS_POINTS < n + MAX_FEE_BASIS_POINTS
  {
    assert CeilDiv(n, MAX_FEE_BASIS_POINTS) == (n + 9_999) / 10_000;
  }

  /** The fee is the rate on the amount rounded up to a whole token, and no more than the cap. */
  lemma FeeRoundsUp(f: Fee, amount: u64)
    requires CalculateFee(f, amount).Some?
    ensures var fee, exact := CalculateFee(f, amount).value, amount * f.basisPoints;
            && (fee < f.maximumFee ==>
                  exact <= fee * MAX_FEE_BASIS_POINTS < exact + MAX_FEE_BASIS_POINTS)
            && fee * MAX_FEE_BASIS_POINTS < exact + MAX_FEE_BASIS_POINTS
            && (exact > 0 ==> fee <= f.maximumFee)
  {
    CeilDivBounds(amount * f.basisPoints);
  }
}
