/** The fee split, in exact hundredths of a minor unit. */
module Money {
  import opened Wrappers
  import opened Reals

  /** Math.round: to the nearest integer, halves upward. */
  function Round(x: real): int {
    (x + 0.5).Floor
  }

  /** `fee` and `seller` are hundredths of a cent: the code divides by 100 only after rounding. */
  datatype Split = Split(fee: int, seller: int)

  function CalculateFee(amount: int, percent: real): Split {
    var fee := Round(amount as real * percent);
    Split(fee, 100 * amount - fee)
  }

  /** The other calculateFee of the repository, which rounds to whole cents. */
  function CalculateFeeCents(amount: int, percent: real): int {
    Round(amount as real * percent / 100.0)
  }

  predicate WholeCents(s: Split) {
    s.fee % 100 == 0
  }

  /** The split that createPayout can store: its columns are integers. */
  function StoredFee(amount: int, percent: real): Option<(int, int)> {
    var s := CalculateFee(amount, percent);
    if WholeCents(s) then Some((s.fee / 100, s.seller / 100)) else None
  }

  lemma RoundNear(x: real)
    ensures -0.5 < Round(x) as real - x <= 0.5
  {
  }

  lemma RoundWithin(x: real, top: int)
    requires 0.0 <= x <= top as real
    ensures 0 <= Round(x) <= top
  {
  }

  lemma Portion(amount: int, percent: real)
    requires amount >= 0 && 0.0 <= percent <= 100.0
    ensures 0.0 <= amount as real * percent <= (100 * amount) as real
  {
    var a := amount as real;
    ProductMonotone(100.0, percent, a);
    assert a * 100.0 == (100 * amount) as real;
  }

  /** Nothing is lost in the split, and the fee is the exact percentage to within half a hundredth. */
  lemma SplitIsExact(amount: int, percent: real)
    ensures var s := CalculateFee(amount, percent);
      && s.fee + s.seller == 100 * amount
      && -0.5 < s.fee as real - amount as real * percent <= 0.5
      && (amount >= 0 && 0.0 <= percent <= 100.0 ==> s.fee >= 0 && s.seller >= 0)
  {
    RoundNear(amount as real * percent);
    if amount >= 0 && 0.0 <= percent <= 100.0 {
      Portion(amount, percent);
      RoundWithin(amount as real * percent, 100 * amount);
    }
  }

  /** Both halves are whole cents together, or neither is. */
  lemma WholeTogether(amount: int, percent: real)
    ensures WholeCents(CalculateFee(amount, percent)) <==> CalculateFee(amount, percent).seller % 100 == 0
  {
  }

  /** The two fee functions agree exactly when the first one yields whole cents. */
  lemma FeesAgreeIff(amount: int, percent: real)
    ensures CalculateFee(amount, percent).fee == 100 * CalculateFeeCents(amount, percent) <==>
        WholeCents(CalculateFee(amount, percent))
  {
    var x := amount as real * percent;
    var f := CalculateFee(amount, percent).fee;
    assert f as real <= x + 0.5 < f as real + 1.0;
    if f % 100 == 0 {
      var k := f / 100;
      assert f as real == 100.0 * k as real;
      assert k as real <= x / 100.0 + 0.5 < k as real + 1.0;
    }
  }

  /**
   The split guards of the ledger's release and reversal pass for a stored payout
   exactly when the rounded fee lies between nothing and the whole amount; a
   percentage from 0 to 100 ensures that.
   */
  lemma GuardsPassIff(amount: int, percent: real)
    requires amount >= 0 && StoredFee(amount, percent).Some?
    ensures var (fee, seller) := StoredFee(amount, percent).value;
      && fee + seller == amount
      && (fee >= 0 && seller >= 0 <==> 0 <= CalculateFee(amount, percent).fee <= 100 * amount)
      && (0.0 <= percent <= 100.0 ==> fee >= 0 && seller >= 0)
  {
    SplitIsExact(amount, percent);
    WholeTogether(amount, percent);
  }
}
