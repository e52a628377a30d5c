/** The part of System.TimeSpan the plugins use: a whole number of ticks of
    100 ns, built from milliseconds and read back as whole milliseconds. */
module TimeSpan {

  const TicksPerMillisecond := 10000

  /** long.MaxValue as ticks is 922337203685477.5807 ms: the largest whole
      number of milliseconds a TimeSpan holds. */
  const MaxMilliseconds := 922337203685477

  /** A duration in ticks. */
  type Ticks = int

  /** TimeSpan.FromMilliseconds(ms) for a whole number of milliseconds. Outside
      the range the host throws, so the range is demanded. */
  function FromMilliseconds(ms: int): (t: Ticks)
    requires -MaxMilliseconds <= ms <= MaxMilliseconds
    ensures t % TicksPerMillisecond == 0
    ensures (t < 0 <==> ms < 0) && (t == 0 <==> ms == 0)
  {
    ms * TicksPerMillisecond
  }

  /** `(long)span.TotalMilliseconds`: the milliseconds, truncated toward zero. */
  function WholeMilliseconds(t: Ticks): (ms: int)
    ensures t >= 0 ==> 0 <= ms && ms * TicksPerMillisecond <= t < (ms + 1) * TicksPerMillisecond
    ensures t < 0 ==> ms <= 0 && (ms - 1) * TicksPerMillisecond < t <= ms * TicksPerMillisecond
  {
    if t >= 0 then t / TicksPerMillisecond else -((-t) / TicksPerMillisecond)
  }

  /** Reading a duration back gives the milliseconds it was set from. */
  lemma MillisecondsRoundTrip(ms: int)
    requires -MaxMilliseconds <= ms <= MaxMilliseconds
    ensures WholeMilliseconds(FromMilliseconds(ms)) == ms
  {
    var t := FromMilliseconds(ms);
    if ms >= 0 {
      assert t / TicksPerMillisecond == ms;
    } else {
      assert -t == (-ms) * TicksPerMillisecond;
      assert (-t) / TicksPerMillisecond == -ms;
    }
  }

  /** Setting a duration from what was read leaves it alone exactly when it is
      a whole number of milliseconds. */
  lemma TicksRoundTrip(t: Ticks)
    requires -MaxMilliseconds * TicksPerMillisecond <= t <= MaxMilliseconds * TicksPerMillisecond
    ensures -MaxMilliseconds <= WholeMilliseconds(t) <= MaxMilliseconds
    ensures FromMilliseconds(WholeMilliseconds(t)) == t <==> t % TicksPerMillisecond == 0
  {
  }
}
