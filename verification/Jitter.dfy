/** The jitter scheduler: an interval around a base is drawn anew whenever the last one led to a check-in. Durations
    are seconds; a zero field of a configuration means "not given". */
module Jitter {
  import opened Wrappers

  const MINUTE := 60
  const HOUR := 3600

  datatype Settings = Settings(base: int, jitterMax: int, scale: int, strict: int, polling: int) {
    function JitterMaxDuration(): int {
      jitterMax * scale
    }

    function WithDefaults(): Settings {
      var max := if jitterMax == 0 then 15 else jitterMax;
      var unit := if scale == 0 then MINUTE else scale;
      Settings(base, max, unit, if strict == 0 then base + max * unit else strict, if polling == 0 then 30 else polling)
    }

    /** The settings the calculator works with, unless its constructor panics. */
    function Completed(): Option<Settings> {
      if base == 0 then None
      else
        var full := WithDefaults();
        if base - full.JitterMaxDuration() < 0 then None else Some(full)
    }

    /** A draw is what the random source answers; it panics without room to draw from. */
    predicate CanDraw(draw: nat) {
      draw < jitterMax * 2 + 1
    }

    function Interval(draw: nat): int {
      base + (draw - jitterMax) * scale
    }
  }

  lemma ProductIsMonotone(a: int, b: int, c: int)
    requires a <= b
    ensures c >= 0 ==> a * c <= b * c
    ensures c <= 0 ==> a * c >= b * c
  {
  }

  function Abs(x: int): nat {
    if x < 0 then -x else x
  }

  /** Every interval lies within the jitter of the base. */
  lemma IntervalIsWithinTheJitter(s: Settings, draw: nat)
    requires s.CanDraw(draw)
    ensures s.base - Abs(s.JitterMaxDuration()) <= s.Interval(draw) <= s.base + Abs(s.JitterMaxDuration())
  {
    ProductIsMonotone(-s.jitterMax, draw - s.jitterMax, s.scale);
    ProductIsMonotone(draw - s.jitterMax, s.jitterMax, s.scale);
    assert (-s.jitterMax) * s.scale == -(s.jitterMax * s.scale);
  }

  /** What the constructor lets through can be drawn from exactly if its jitter is positive. Then all intervals are
      non-negative exactly when the scale is positive or the base makes up for it, and the default deadline is never
      before an interval exactly when the scale is positive. */
  lemma CompletedIntervals(s: Settings)
    requires s.Completed().Some?
    ensures var f := s.Completed().value;
            && ((exists draw: nat :: f.CanDraw(draw)) <==> f.jitterMax > 0)
            && (f.jitterMax > 0 ==>
                  ((forall draw: nat :: f.CanDraw(draw) ==> f.Interval(draw) >= 0) <==> f.base + f.JitterMaxDuration() >= 0))
            && (f.jitterMax > 0 && s.strict == 0 ==>
                  ((forall draw: nat :: f.CanDraw(draw) ==> f.Interval(draw) <= f.strict) <==> f.scale > 0))
  {
    var f := s.Completed().value;
    if f.jitterMax > 0 {
      IntervalsOf(f);
      ProductIsMonotone(1, f.jitterMax, f.scale);
    }
  }

  /** Settings are refused exactly without a base, or when the base is smaller than the jitter. */
  lemma UsableExactly(s: Settings)
    ensures s.Completed().Some? <==>
              s.base != 0 && (if s.jitterMax == 0 then 15 else s.jitterMax) * (if s.scale == 0 then 60 else s.scale) <= s.base
  {
  }

  /** What is given stays, what is not is a jitter of up to 15 minutes, a check every 30 seconds and a deadline that
      many after the base; and completing the settings again changes nothing. */
  lemma CompletingKeepsWhatIsGiven(s: Settings)
    requires s.Completed().Some?
    ensures var f := s.Completed().value;
            && f.Completed() == Some(f) && f.base == s.base
            && f.jitterMax == (if s.jitterMax != 0 then s.jitterMax else 15)
            && f.scale == (if s.scale != 0 then s.scale else 60)
            && f.polling == (if s.polling != 0 then s.polling else 30)
            && f.strict == (if s.strict != 0 then s.strict else f.base + f.jitterMax * f.scale)
    ensures s.jitterMax == 0 && s.scale == 0 ==> s.Completed().value.JitterMaxDuration() == 900
  {
  }

  lemma IntervalsOf(f: Settings)
    requires f.jitterMax > 0
    ensures f.CanDraw(0) && f.Interval(0) == f.base - f.JitterMaxDuration()
    ensures f.CanDraw(2 * f.jitterMax) && f.Interval(2 * f.jitterMax) == f.base + f.JitterMaxDuration()
    ensures forall draw: nat :: f.CanDraw(draw) ==>
              f.base - Abs(f.JitterMaxDuration()) <= f.Interval(draw) <= f.base + Abs(f.JitterMaxDuration())
  {
    assert (0 - f.jitterMax) * f.scale == -(f.jitterMax * f.scale);
    forall draw: nat | f.CanDraw(draw)
      ensures f.base - Abs(f.JitterMaxDuration()) <= f.Interval(draw) <= f.base + Abs(f.JitterMaxDuration())
    {
      IntervalIsWithinTheJitter(f, draw);
    }
  }

  // ----- in place

  class Config {
    var baseInterval: int
    var jitterMax: int
    var jitterMaxScale: int
    var strictDeadline: int
    var pollingInterval: int

    constructor (s: Settings)
      ensures View() == s
    {
      baseInterval, jitterMax, jitterMaxScale := s.base, s.jitterMax, s.scale;
      strictDeadline, pollingInterval := s.strict, s.polling;
    }

    function View(): Settings
      reads this
    {
      Settings(baseInterval, jitterMax, jitterMaxScale, strictDeadline, pollingInterval)
    }

    /** Fills in what is not given. False is a panic. */
    method Complete() returns (ok: bool)
      modifies this
      ensures ok <==> old(View()).Completed().Some?
      ensures ok ==> View() == old(View()).Completed().value
    {
      if baseInterval == 0 {
        return false;
      }
      if pollingInterval == 0 {
        pollingInterval := 30;
      }
      if jitterMax == 0 {
        jitterMax := 15;
      }
      if jitterMaxScale == 0 {
        jitterMaxScale := MINUTE;
      }
      if strictDeadline == 0 {
        strictDeadline := baseInterval + View().JitterMaxDuration();
      }
      ok := baseInterval - View().JitterMaxDuration() >= 0;
    }
  }

  /** What the callable says: whether to draw again, or an error. */
  datatype Verdict = Verdict(refresh: bool, failed: bool)

  function NextTrigger(s: Settings, trigger: int, v: Verdict, draw: nat): int {
    if v.failed || !v.refresh then trigger else s.Interval(draw)
  }

  class JitterChecker {
    const config: Config
    var triggerInterval: int

    constructor (c: Config)
      ensures config == c && triggerInterval == 0
    {
      config, triggerInterval := c, 0;
    }

    method CalculateCheckinInterval(draw: nat)
      requires config.View().CanDraw(draw)
      modifies this
      ensures triggerInterval == config.View().Interval(draw)
    {
      var jitterValue := draw - config.jitterMax;
      triggerInterval := config.baseInterval + jitterValue * config.jitterMaxScale;
    }

    /** The part of a tick after the callable has answered. */
    method Conclude(v: Verdict, draw: nat)
      requires config.View().CanDraw(draw)
      modifies this
      ensures triggerInterval == NextTrigger(config.View(), old(triggerInterval), v, draw)
    {
      if v.failed {
        return;
      }
      if v.refresh {
        CalculateCheckinInterval(draw);
      }
    }
  }
}
