/** The clock reading of `getTOD`: counter ticks as microseconds, the product being cut to 64 bits. */
module TimeOfDay {
  import opened Arithmetic
  import opened Bytes

  const MILLION := 1000000

  /** No command of any device takes longer. */
  const CLEARANCE: nat := 0x2_0000_0000_0000

  /** `getTOD` at counter value `count`. */
  function Reading(count: nat, freq: nat): nat
    requires freq > 0
  {
    count * MILLION % TWO_TO_THE_64 / freq
  }

  ghost predicate NeverGoesBack(freq: nat, last: nat)
    requires freq > 0
  {
    forall a: nat, b: nat :: a <= b <= last ==> Reading(a, freq) <= Reading(b, freq)
  }

  /** Without wrap-around, readings keep the order of counter values, and lie clear of the end of the 64-bit
      range by any delay. */
  lemma ReadingsInOrder(a: nat, b: nat, freq: nat)
    requires freq >= 2 && a <= b && b * MILLION < TWO_TO_THE_64
    ensures Reading(a, freq) <= Reading(b, freq) && Reading(b, freq) + CLEARANCE <= TWO_TO_THE_64
  {
    assert a * MILLION % TWO_TO_THE_64 == a * MILLION && b * MILLION % TWO_TO_THE_64 == b * MILLION;
    DivisionKeepsOrder(a * MILLION, b * MILLION, freq);
    HalfAtMost(b * MILLION, freq);
  }

  /** Without wrap-around, the reading is the time that has passed, in whole microseconds. */
  lemma ReadingIsElapsed(count: nat, freq: nat)
    requires freq > 0 && count * 1000000 < TWO_TO_THE_64
    ensures Reading(count, freq) * freq <= count * 1000000 < (Reading(count, freq) + 1) * freq
  {
    WholeQuotient(count * 1000000, freq);
  }

  lemma WholeQuotient(x: nat, d: nat)
    requires d > 0
    ensures x / d * d <= x < (x / d + 1) * d
  {
    assert x == x / d * d + x % d;
    assert (x / d + 1) * d == x / d * d + d;
  }

  lemma HalfAtMost(x: nat, d: nat)
    requires d >= 2 && x < TWO_TO_THE_64
    ensures x / d < 0x8000_0000_0000_0000
  {
  }

  /** The last counter value before the product wraps, and the first one after. */
  const LAST: nat := 18446744073709

  lemma WrapGoesBack(freq: nat)
    requires 0 < freq < TWO_TO_THE_32
    ensures Reading(LAST + 1, freq) < Reading(LAST, freq)
  {
    assert LAST * MILLION % TWO_TO_THE_64 == 18446744073709000000;
    assert (LAST + 1) * MILLION % TWO_TO_THE_64 == 448384;
    DivisionStep(448384, freq);
    DivisionKeepsOrder(448384 + freq, 18446744073709000000, freq);
  }

  /** Up to counter value `last` the clock never goes back if and only if the product has not wrapped: for
      about 11 days at 19.2 MHz. */
  lemma NeverGoesBackIff(freq: nat, last: nat)
    requires 0 < freq < TWO_TO_THE_32
    ensures NeverGoesBack(freq, last) <==> last * MILLION < TWO_TO_THE_64
  {
    if last * MILLION < TWO_TO_THE_64 {
      forall a: nat, b: nat | a <= b <= last
        ensures Reading(a, freq) <= Reading(b, freq)
      {
        assert a * MILLION % TWO_TO_THE_64 == a * MILLION && b * MILLION % TWO_TO_THE_64 == b * MILLION;
        DivisionKeepsOrder(a * MILLION, b * MILLION, freq);
      }
    } else {
      assert LAST + 1 <= last;
      WrapGoesBack(freq);
    }
  }
}
