/**
 The ambient-light reading as a percentage: a clamped linear map of a 16-bit
 ADC value onto [0, 100] between a calibrated minimum and maximum.
 */
module LightIntensity {
  import opened Registers
  import opened Arith

  /**
   `adcValueToPercentage`. Below the minimum gives 0, above the maximum 100;
   in between, the offset times 100 divided by the span, truncated (all
   operands non-negative, so C's truncating division is the floor). The
   subtraction is done in 16 bits but cannot wrap there, and the product is
   formed in 32-bit `long`, which `65535 * 100` fits. The one input the source
   cannot handle is a value equal to both bounds, which divides by zero.
   */
  function AdcValueToPercentage(adcValue: uint16, minAdcValue: uint16, maxAdcValue: uint16): (pct: int)
    requires minAdcValue != maxAdcValue || adcValue != minAdcValue
    ensures 0 <= pct <= 100
    ensures adcValue < minAdcValue ==> pct == 0
    ensures adcValue > maxAdcValue && adcValue >= minAdcValue ==> pct == 100
    ensures minAdcValue <= adcValue <= maxAdcValue ==>
      && pct * (maxAdcValue - minAdcValue) <= (adcValue - minAdcValue) * 100
      && (adcValue - minAdcValue) * 100 < (pct + 1) * (maxAdcValue - minAdcValue)
  {
    if adcValue < minAdcValue then 0
    else if adcValue > maxAdcValue then 100
    else
      var span := maxAdcValue - minAdcValue;
      var offset := adcValue - minAdcValue;
      assert offset * 100 <= span * 100;
      DivBounds(offset * 100, span, 100);
      offset * 100 / span
  }

  /** Floor division of a value in [0, span * k] by a positive span lies in [0, k]. */
  lemma DivBounds(x: int, span: int, k: nat)
    requires span > 0 && 0 <= x <= span * k
    ensures 0 <= x / span <= k
    ensures (x / span) * span <= x < (x / span + 1) * span
  {
  }

  /** With a proper range, a brighter reading never gives a smaller percentage. */
  lemma PercentageMonotone(a1: uint16, a2: uint16, minAdcValue: uint16, maxAdcValue: uint16)
    requires minAdcValue < maxAdcValue && a1 <= a2
    ensures AdcValueToPercentage(a1, minAdcValue, maxAdcValue) <= AdcValueToPercentage(a2, minAdcValue, maxAdcValue)
  {
    var p1 := AdcValueToPercentage(a1, minAdcValue, maxAdcValue);
    var p2 := AdcValueToPercentage(a2, minAdcValue, maxAdcValue);
    if minAdcValue <= a1 && a2 <= maxAdcValue && p1 > p2 {
      var span := maxAdcValue - minAdcValue;
      MulMonotone(p2 + 1, p1, span);
      assert false;
    }
  }

  /** With a proper range, the minimum reads 0 % and the maximum 100 %. */
  lemma PercentageEndpoints(minAdcValue: uint16, maxAdcValue: uint16)
    requires minAdcValue < maxAdcValue
    ensures AdcValueToPercentage(minAdcValue, minAdcValue, maxAdcValue) == 0
    ensures AdcValueToPercentage(maxAdcValue, minAdcValue, maxAdcValue) == 100
  {
    var span := maxAdcValue - minAdcValue;
    var top := AdcValueToPercentage(maxAdcValue, minAdcValue, maxAdcValue);
    FloorUnique(top, 100, span);
  }

}
