/** The bookkeeping every matcher shares: a run of consecutive matching hops, as a
    sample counter and the frames retained, cleared by the first hop that does not
    match. The variant's own scoring of a hop is an input here. */
module Matchers {

  /** One hop of audio samples. */
  type Frame = seq<real>

  /** A matcher's score for a hop: a number, or NaN where there is none. */
  datatype Score = Undefined | Defined(value: real)

  /** The `(value, match)` pair a matcher gives for a hop. */
  datatype Outcome = Outcome(value: Score, matched: bool)

  /** The state of a run: the counter, the retained frames and, alongside them, the
      sample count each retained frame arrived with. */
  datatype Run = Run(count: nat, frames: seq<Frame>, counts: seq<nat>)

  /** The state right after construction or `reset`. */
  const EmptyRun := Run(0, [], [])

  function Sum(xs: seq<nat>): nat
  {
    if xs == [] then 0 else Sum(xs[..|xs| - 1]) + xs[|xs| - 1]
  }

  /** The counter is the total of the sample counts of the retained frames. */
  predicate Consistent(r: Run)
  {
    |r.frames| == |r.counts| && r.count == Sum(r.counts)
  }

  /** `process_samples` after the scoring: a match adds the hop's sample count and
      keeps the frame at the end; any other outcome resets. */
  function Bookkeep(r: Run, samples: Frame, sampleCount: nat, matched: bool): (next: Run)
  {
    if matched then Run(r.count + sampleCount, r.frames + [samples], r.counts + [sampleCount])
    else EmptyRun
  }

  lemma SumSnoc(xs: seq<nat>, x: nat)
    ensures Sum(xs + [x]) == Sum(xs) + x
  {
    assert (xs + [x])[..|xs|] == xs;
  }

  /** The counter stays the total of the retained frames' sample counts. */
  lemma BookkeepKeepsConsistent(r: Run, samples: Frame, sampleCount: nat, matched: bool)
    requires Consistent(r)
    ensures Consistent(Bookkeep(r, samples, sampleCount, matched))
  {
    if matched {
      SumSnoc(r.counts, sampleCount);
    }
  }

  /** The hops a matcher is given, each with its frame, sample count and whether it matched. */
  datatype Hop = Hop(samples: Frame, sampleCount: nat, matched: bool)

  /** The run after a sequence of hops, in order. */
  function Replay(r: Run, hops: seq<Hop>): Run
    decreases |hops|
  {
    if hops == [] then r
    else
      var last := hops[|hops| - 1];
      Bookkeep(Replay(r, hops[..|hops| - 1]), last.samples, last.sampleCount, last.matched)
  }

  /** `n` hops of `s` samples each. */
  function Repeat(s: nat, n: nat): (r: seq<nat>)
    ensures |r| == n && forall i :: 0 <= i < n ==> r[i] == s
  {
    if n == 0 then [] else Repeat(s, n - 1) + [s]
  }

  /** One matching hop of `s` samples per frame. */
  function MatchingHops(frames: seq<Frame>, s: nat): (hops: seq<Hop>)
    ensures |hops| == |frames|
    ensures forall i :: 0 <= i < |frames| ==> hops[i] == Hop(frames[i], s, true)
  {
    if frames == [] then [] else MatchingHops(frames[..|frames| - 1], s) + [Hop(frames[|frames| - 1], s, true)]
  }

  /** After `N` matching hops of `S` samples each, starting afresh, the counter is
      `N * S` and the frames are the hops' frames, in arrival order. */
  lemma ConsecutiveMatches(frames: seq<Frame>, s: nat)
    ensures Replay(EmptyRun, MatchingHops(frames, s)) == Run(|frames| * s, frames, Repeat(s, |frames|))
  {
    MatchesAccumulate(frames, s);
    SumRepeat(s, |frames|);
  }

  lemma {:induction false} MatchesAccumulate(frames: seq<Frame>, s: nat)
    ensures Replay(EmptyRun, MatchingHops(frames, s)) == Run(Sum(Repeat(s, |frames|)), frames, Repeat(s, |frames|))
    decreases |frames|
  {
    if frames != [] {
      var n := |frames| - 1;
      var prev := Replay(EmptyRun, MatchingHops(frames[..n], s));
      MatchesAccumulate(frames[..n], s);
      MatchingHopsInit(frames, s);
      assert Replay(EmptyRun, MatchingHops(frames, s)) == Bookkeep(prev, frames[n], s, true);
      SumSnoc(Repeat(s, n), s);
      assert Repeat(s, n) + [s] == Repeat(s, n + 1);
      HeadTail(frames);
    }
  }

  lemma MatchingHopsInit(frames: seq<Frame>, s: nat)
    requires frames != []
    ensures var n := |frames| - 1;
            && MatchingHops(frames, s)[..n] == MatchingHops(frames[..n], s)
            && MatchingHops(frames, s)[n] == Hop(frames[n], s, true)
  {
  }

  lemma {:induction false} SumRepeat(s: nat, n: nat)
    ensures Sum(Repeat(s, n)) == n * s
  {
    if n > 0 {
      SumRepeat(s, n - 1);
      SumSnoc(Repeat(s, n - 1), s);
      assert (n - 1) * s + s == n * s;
    }
  }

  lemma HeadTail(frames: seq<Frame>)
    requires frames != []
    ensures frames[..|frames| - 1] + [frames[|frames| - 1]] == frames
  {
  }

  /** Whatever came before, the run only reflects the hops since the last one that did
      not match. */
  lemma {:induction false} RunSinceLastMiss(r: Run, hops: seq<Hop>, k: nat)
    requires k < |hops| && !hops[k].matched
    ensures Replay(r, hops) == Replay(EmptyRun, hops[k + 1..])
    decreases |hops|
  {
    var n := |hops| - 1;
    if k < n {
      RunSinceLastMiss(r, hops[..n], k);
      assert hops[..n][k + 1..] == hops[k + 1..n];
      assert hops[k + 1..][..|hops[k + 1..]| - 1] == hops[k + 1..n];
    }
  }

  /** A matcher: a name and its run. The variant's scoring of each hop is passed to
      `ProcessSamples` as the `scored` outcome. */
  class Matcher {
    const name: string
    var matchSampleCount: nat
    var matchSamples: seq<Frame>
    /** The sample count each retained frame arrived with. */
    ghost var sampleCounts: seq<nat>

    ghost function State(): Run
      reads this
    {
      Run(matchSampleCount, matchSamples, sampleCounts)
    }

    ghost predicate Valid()
      reads this
    {
      Consistent(State())
    }

    constructor(name: string)
      ensures this.name == name
      ensures State() == EmptyRun && Valid()
    {
      this.name := name;
      matchSampleCount := 0;
      matchSamples := [];
      sampleCounts := [];
    }

    /** `reset`: the counter to zero and no frames retained; the name stays. */
    method Reset()
      modifies this
      ensures State() == EmptyRun && Valid()
    {
      matchSampleCount := 0;
      matchSamples := [];
      sampleCounts := [];
    }

    function MatchSampleCount(): nat
      reads this
    {
      matchSampleCount
    }

    function MatchSamples(): seq<Frame>
      reads this
    {
      matchSamples
    }

    /** `process_samples`: the variant's outcome is returned unchanged, and the run is
      kept as `Bookkeep` says. */
    method ProcessSamples(samples: Frame, sampleCount: nat, scored: Outcome) returns (o: Outcome)
      requires Valid()
      modifies this
      ensures o == scored
      ensures State() == Bookkeep(old(State()), samples, sampleCount, scored.matched)
      ensures Valid()
    {
      if scored.matched {
        matchSampleCount := matchSampleCount + sampleCount;
        matchSamples := matchSamples + [samples];
        sampleCounts := sampleCounts + [sampleCount];
        BookkeepKeepsConsistent(old(State()), samples, sampleCount, true);
      } else {
        Reset();
      }
      o := scored;
    }
  }
}
