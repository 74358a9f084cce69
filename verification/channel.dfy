/**
 * `convertFrequencyToChannel`: a centre frequency in MHz to an IEEE 802.11
 * channel number, -1 when the frequency is in neither band.  Channel n of the
 * 2.4 GHz band is centred at 2407 + 5n MHz for n in 1..13 and channel 14 at
 * 2484 MHz; channel n of the 5 GHz band is centred at 5000 + 5n MHz (section
 * 17.3.8.4.2 of IEEE 802.11-2016).
 */
module Channel {

  /** The 2.4 GHz and 5 GHz ranges the conversion accepts. */
  predicate InBand24(f: int) { 2412 <= f <= 2484 }
  predicate InBand5(f: int) { 5170 <= f <= 5825 }

  /**
   * The conversion as written.  Both subtractions are non-negative inside the
   * bands, so Java's truncating division agrees with Dafny's `/`.
   */
  function ChannelOfFrequency(freq: int): (ch: int)
    ensures InBand24(freq) ==> 1 <= ch <= 15 && 2407 + 5 * ch <= freq < 2412 + 5 * ch
    ensures InBand5(freq) ==> 34 <= ch <= 165 && 5000 + 5 * ch <= freq < 5005 + 5 * ch
    ensures ch == -1 <==> !InBand24(freq) && !InBand5(freq)
  {
    if 2412 <= freq <= 2484 then (freq - 2412) / 5 + 1
    else if 5170 <= freq <= 5825 then (freq - 5170) / 5 + 34
    else -1
  }

  /** Within each band a higher frequency never gives a lower channel. */
  lemma ChannelMonotone(f1: int, f2: int)
    requires f1 <= f2
    requires (InBand24(f1) && InBand24(f2)) || (InBand5(f1) && InBand5(f2))
    ensures ChannelOfFrequency(f1) <= ChannelOfFrequency(f2)
  {
  }

  /** Every 5 GHz channel 34..165 is produced by its own centre frequency. */
  lemma Band5CentreFrequencies(n: int)
    requires 34 <= n <= 165
    ensures ChannelOfFrequency(5000 + 5 * n) == n
  {
  }

  /** Channels 1..13 are produced by their own centre frequencies. */
  lemma Band24CentreFrequencies(n: int)
    requires 1 <= n <= 13
    ensures ChannelOfFrequency(2407 + 5 * n) == n
  {
  }

  /** The top of the accepted 2.4 GHz range, 2482..2484 MHz, is reported as channel 15, a channel the band does not have. */
  lemma Channel2484AsWritten(f: int)
    requires 2482 <= f <= 2484
    ensures ChannelOfFrequency(f) == 15
  {
  }

  /**
   * The conversion with the top of the 2.4 GHz range, 2482..2484 MHz, placed
   * on channel 14 (centred at 2484 MHz in the standard's channel table)
   * instead of 15.
   */
  function ChannelOfFrequencyIeee(freq: int): (ch: int)
    ensures InBand24(freq) ==> 1 <= ch <= 14
    ensures freq == 2484 ==> ch == 14
    ensures freq < 2482 || freq > 2484 ==> ch == ChannelOfFrequency(freq)
  {
    if 2482 <= freq <= 2484 then 14 else ChannelOfFrequency(freq)
  }

  /** The corrected conversion maps every 2.4 GHz channel centre, 1..14, to its own number and nothing in range above 14. */
  lemma IeeeBand24Channels(n: int)
    requires 1 <= n <= 14
    ensures ChannelOfFrequencyIeee(if n == 14 then 2484 else 2407 + 5 * n) == n
  {
  }

  /** The corrected conversion is still monotone across the whole 2.4 GHz range. */
  lemma IeeeMonotone(f1: int, f2: int)
    requires f1 <= f2
    requires (InBand24(f1) && InBand24(f2)) || (InBand5(f1) && InBand5(f2))
    ensures ChannelOfFrequencyIeee(f1) <= ChannelOfFrequencyIeee(f2)
  {
    ChannelMonotone(f1, f2);
  }
}
