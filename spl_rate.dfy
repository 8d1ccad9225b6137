/** The sound-pressure-level rate-of-change matcher: a hop matches when its level
    differs from the previous hop's level by less than the threshold. The level of
    a hop (`aubio.db_spl`) is an input here. */
module SplRate {
  import opened Wrappers
  import opened Matchers

  const Name := "SPL rate of change"

  function Abs(x: real): real
  {
    if x < 0.0 then -x else x
  }

  /** `_process_samples` as a function of the level remembered so far: the outcome and
      the level remembered afterwards. The first hop only sets the baseline. */
  function RateStep(previous: Option<real>, level: real, threshold: real): (r: (Outcome, Option<real>))
    ensures r.1 == Some(level)
    ensures previous.None? ==> r.0 == Outcome(Undefined, false)
    ensures previous.Some? ==> r.0.value == Defined(level - previous.value)
    ensures previous.Some? ==> (r.0.matched <==> -threshold < level - previous.value < threshold)
  {
    match previous
    case None => (Outcome(Undefined, false), Some(level))
    case Some(p) => (Outcome(Defined(level - p), Abs(level - p) < threshold), Some(level))
  }

  /** The outcomes of a sequence of hops with the given levels, in order. */
  function RateTrace(previous: Option<real>, levels: seq<real>, threshold: real): (r: seq<Outcome>)
    ensures |r| == |levels|
    decreases |levels|
  {
    if levels == [] then []
    else [RateStep(previous, levels[0], threshold).0] + RateTrace(Some(levels[0]), levels[1..], threshold)
  }

  /** Each hop is compared with the hop just before it; only the very first hop of a
      fresh matcher has nothing to compare with. */
  lemma {:induction false} RateTraceAt(previous: Option<real>, levels: seq<real>, threshold: real, i: nat)
    requires i < |levels|
    ensures RateTrace(previous, levels, threshold)[i]
              == RateStep(if i == 0 then previous else Some(levels[i - 1]), levels[i], threshold).0
    decreases i
  {
    if i > 0 {
      RateTraceAt(Some(levels[0]), levels[1..], threshold, i - 1);
      if i > 1 {
        assert levels[1..][i - 2] == levels[i - 1];
      }
    }
  }

  /** A fresh matcher never matches its first hop, whatever its level. */
  lemma FirstHopNeverMatches(levels: seq<real>, threshold: real)
    requires levels != []
    ensures RateTrace(None, levels, threshold)[0] == Outcome(Undefined, false)
  {
    RateTraceAt(None, levels, threshold, 0);
  }

  /** After the first hop, an unchanged level is a match with a change of zero, for any
      positive threshold. */
  lemma SteadyLevelMatches(levels: seq<real>, threshold: real, i: nat)
    requires 0 < i < |levels| && levels[i] == levels[i - 1] && threshold > 0.0
    ensures RateTrace(None, levels, threshold)[i] == Outcome(Defined(0.0), true)
  {
    RateTraceAt(None, levels, threshold, i);
  }

  /** A change as large as the threshold, either way, is not a match. */
  lemma LargeSwingMisses(levels: seq<real>, threshold: real, i: nat)
    requires 0 < i < |levels| && Abs(levels[i] - levels[i - 1]) >= threshold
    ensures !RateTrace(None, levels, threshold)[i].matched
  {
    RateTraceAt(None, levels, threshold, i);
  }

  /** Four hops with levels 0, 0, 6.5 and 20 dB against a threshold of 10: no value and
      no match, then a steady match, a small rise that matches, and a large one that does
      not. */
  lemma FourHops()
    ensures RateTrace(None, [0.0, 0.0, 6.5, 20.0], 10.0)
              == [Outcome(Undefined, false), Outcome(Defined(0.0), true),
                  Outcome(Defined(6.5), true), Outcome(Defined(13.5), false)]
  {
    var levels := [0.0, 0.0, 6.5, 20.0];
    RateTraceAt(None, levels, 10.0, 0);
    RateTraceAt(None, levels, 10.0, 1);
    RateTraceAt(None, levels, 10.0, 2);
    RateTraceAt(None, levels, 10.0, 3);
  }

  /** `SoundPressureLevelRateOfChangeMatcher`: the shared bookkeeping, the configured
      threshold and the level of the last hop seen. */
  class SoundPressureLevelRateOfChangeMatcher {
    const base: Matcher
    const threshold: real
    var previousValue: Option<real>

    ghost predicate Valid()
      reads this, base
    {
      base.Valid()
    }

    /** A fresh matcher: no run and no level seen yet. */
    constructor(threshold: real)
      ensures this.threshold == threshold && previousValue.None?
      ensures fresh(base) && base.name == Name && base.State() == EmptyRun
      ensures Valid()
    {
      base := new Matcher(Name);
      this.threshold := threshold;
      previousValue := None;
    }

    /** `reset` clears the run but keeps the last level seen, so the next hop is still
        compared with it. */
    method Reset()
      requires Valid()
      modifies base
      ensures base.State() == EmptyRun && previousValue == old(previousValue)
      ensures Valid()
    {
      base.Reset();
    }

    /** `process_samples` for a hop whose level is `level`: the rate step, then the
        shared bookkeeping with its match. */
    method ProcessSamples(samples: Frame, sampleCount: nat, level: real) returns (o: Outcome)
      requires Valid()
      modifies this, base
      ensures (o, previousValue) == RateStep(old(previousValue), level, threshold)
      ensures base.State() == Bookkeep(old(base.State()), samples, sampleCount, o.matched)
      ensures Valid()
    {
      var scored: Outcome;
      if previousValue.None? {
        previousValue := Some(level);
        scored := Outcome(Undefined, false);
      } else {
        var output := level - previousValue.value;
        previousValue := Some(level);
        scored := Outcome(Defined(output), Abs(output) < threshold);
      }
      o := base.ProcessSamples(samples, sampleCount, scored);
    }
  }
}
