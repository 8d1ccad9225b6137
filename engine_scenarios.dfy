/** `process_hop` called over and over until it raises, as the stream's callers and
    its tests do, and what that loop reports when every hop gives the matchers the
    same outcome: nothing at all from a matcher that never matches, and, from one
    that always matches, a first callback once the timeout is exceeded, silence for
    the cooldown, and a callback again one timeout after it. */
module StreamScenarios {
  import opened Wrappers
  import opened Matchers
  import opened StreamSpec

  /** A hop keeps one run per matcher, and a hop that returns has used up at least
      one read of the feed. */
  lemma HopShape(e: Engine, src: Source, s: Settings, names: seq<string>, outcomes: seq<Outcome>)
    requires |names| == |outcomes| == |e.runs|
    ensures var h := StreamSpec.Hop(e, src, s, names, outcomes);
            && |h.engine.runs| == |e.runs|
            && (h.outcome.Returned? ==> |h.source.feed| < |src.feed|)
  {
  }

  /** `while True: stream.process_hop()`: hops until one of them raises, every hop
      giving the matchers `outcomes`, with a problem callback that returns. The loop
      always ends, with the end of the stream
      or a read that failed twice, because past the end of its feed the source only
      delivers empty hops. */
  function RunToEnd(e: Engine, src: Source, s: Settings, names: seq<string>, outcomes: seq<Outcome>): (r: Step)
    requires |names| == |outcomes| == |e.runs|
    ensures r.outcome.EndOfStream? || r.outcome.ReadFailed?
    ensures |r.engine.runs| == |e.runs|
    decreases |src.feed|
  {
    var h := StreamSpec.Hop(e, src, s, names, outcomes);
    HopShape(e, src, s, names, outcomes);
    if h.outcome.Returned? then RunToEnd(h.engine, h.source, s, names, outcomes) else h
  }

  /** Problems are only ever added, and each one names this stream and one of its
      matchers and carries the window as it was when the callback fired. */
  lemma {:induction false} RunProblemsNamed(e: Engine, src: Source, s: Settings, names: seq<string>, outcomes: seq<Outcome>)
    requires |names| == |outcomes| == |e.runs|
    ensures var r := RunToEnd(e, src, s, names, outcomes);
            && |r.engine.problems| >= |e.problems|
            && r.engine.problems[..|e.problems|] == e.problems
            && forall k :: |e.problems| <= k < |r.engine.problems| ==>
                 r.engine.problems[k].stream == s.name && r.engine.problems[k].matcher in names
    decreases |src.feed|
  {
    var h := StreamSpec.Hop(e, src, s, names, outcomes);
    HopShape(e, src, s, names, outcomes);
    HopProblemsNamed(e, src, s, names, outcomes);
    if h.outcome.Returned? {
      RunProblemsNamed(h.engine, h.source, s, names, outcomes);
      var r := RunToEnd(h.engine, h.source, s, names, outcomes);
      assert r.engine.problems[..|e.problems|] == r.engine.problems[..|h.engine.problems|][..|e.problems|];
    }
  }

  lemma HopProblemsNamed(e: Engine, src: Source, s: Settings, names: seq<string>, outcomes: seq<Outcome>)
    requires |names| == |outcomes| == |e.runs|
    ensures var h := StreamSpec.Hop(e, src, s, names, outcomes);
            && |h.engine.problems| >= |e.problems|
            && h.engine.problems[..|e.problems|] == e.problems
            && forall k :: |e.problems| <= k < |h.engine.problems| ==>
                 h.engine.problems[k].stream == s.name && h.engine.problems[k].matcher in names
  {
    var f := Fetch(src);
    if f.read.Got? {
      var pushed := e.(window := Push(e.window, f.read.samples, s.capacity));
      if !Skips(e.counters, s) {
        var r := ScanMatchers(s, pushed.window, f.read.sampleCount, e.counters.matchSampleCount, names, outcomes);
        ScanProblems(s, pushed.window, f.read.sampleCount, e.counters.matchSampleCount, names, outcomes);
        var after := e.problems + r.problems;
        forall k | |e.problems| <= k < |after|
          ensures after[k].stream == s.name && after[k].matcher in names
        {
          assert after[k] == r.problems[k - |e.problems|];
          assert after[k] in r.problems;
        }
      }
    }
  }

  /** A matcher that never matches never has the callback called, however long the
      stream, and the loop ends with the stream's end or a failed read. */
  lemma {:induction false} NeverMatchingNeverCalls(e: Engine, src: Source, s: Settings, names: seq<string>, outcomes: seq<Outcome>)
    requires |names| == |outcomes| == |e.runs|
    requires forall k :: 0 <= k < |outcomes| ==> !outcomes[k].matched
    ensures RunToEnd(e, src, s, names, outcomes).engine.problems == e.problems
    decreases |src.feed|
  {
    var h := StreamSpec.Hop(e, src, s, names, outcomes);
    HopShape(e, src, s, names, outcomes);
    var f := Fetch(src);
    if f.read.Got? {
      var pushed := e.(window := Push(e.window, f.read.samples, s.capacity));
      ScanWithoutMatch(s, pushed.window, f.read.sampleCount, e.counters.matchSampleCount, names, outcomes);
    }
    assert h.engine.problems == e.problems;
    if h.outcome.Returned? {
      NeverMatchingNeverCalls(h.engine, h.source, s, names, outcomes);
    }
  }

  // The counters under a single matcher that matches every hop.

  /** The counters after a hop of `n` samples that a single, matching matcher sees:
      skipped in cooldown, otherwise the counter grows and, past the timeout, fires,
      entering cooldown with the counter zeroed. */
  function Tick(c: Counters, s: Settings, n: nat): Counters
  {
    if Skips(c, s) then c.(cooldownSampleCount := c.cooldownSampleCount + n)
    else if Exceeds(c.matchSampleCount + n, s) then Counters(true, 0, 0)
    else Counters(false, 0, c.matchSampleCount + n)
  }

  /** Whether that hop calls the callback. */
  predicate Fires(c: Counters, s: Settings, n: nat)
  {
    !Skips(c, s) && Exceeds(c.matchSampleCount + n, s)
  }

  /** The counters after hops of the given sample counts, and how many of the hops
      called the callback. */
  datatype Tally = Tally(counters: Counters, fired: nat)

  function TickAll(c: Counters, s: Settings, counts: seq<nat>): Tally
    decreases |counts|
  {
    if counts == [] then Tally(c, 0)
    else
      var rest := TickAll(Tick(c, s, counts[0]), s, counts[1..]);
      Tally(rest.counters, rest.fired + if Fires(c, s, counts[0]) then 1 else 0)
  }

  /** One hop of a stream with a single matcher that matches: the counters move as
      `Tick` says, one problem is added exactly when `Fires`, the read is the feed's
      next one, and the hop ends the stream exactly when it is short. */
  lemma HopTicks(e: Engine, src: Source, s: Settings, name: string, o: Outcome)
    requires |e.runs| == 1 && o.matched
    requires src.feed != [] && src.feed[0].Got?
    ensures var h := StreamSpec.Hop(e, src, s, [name], [o]);
            var n := src.feed[0].sampleCount;
            && h.source == src.(feed := src.feed[1..])
            && h.engine.counters == Tick(e.counters, s, n)
            && |h.engine.problems| == |e.problems| + (if Fires(e.counters, s, n) then 1 else 0)
            && |h.engine.runs| == 1
            && (h.outcome.Returned? <==> n >= HopSize)
            && (!h.outcome.Returned? ==> h.outcome == EndOfStream(s.name))
  {
    var n := src.feed[0].sampleCount;
    var pushed := e.(window := Push(e.window, src.feed[0].samples, s.capacity));
    if !Skips(e.counters, s) {
      OneMatcher(s, pushed.window, n, e.counters.matchSampleCount, name, o);
    }
  }

  /** The sample counts of a feed of good reads. */
  function Counts(feed: seq<Read>): (r: seq<nat>)
    requires forall i :: 0 <= i < |feed| ==> feed[i].Got?
    ensures |r| == |feed| && forall i :: 0 <= i < |feed| ==> r[i] == feed[i].sampleCount
  {
    if feed == [] then [] else [feed[0].sampleCount] + Counts(feed[1..])
  }

  /** A feed of good reads, full hops up to a last short one: an audio file read to
      its end. */
  predicate Ends(feed: seq<Read>)
  {
    && feed != []
    && (forall i :: 0 <= i < |feed| ==> feed[i].Got?)
    && (forall i :: 0 <= i < |feed| - 1 ==> feed[i].Got? && feed[i].sampleCount >= HopSize)
    && feed[|feed| - 1].Got? && feed[|feed| - 1].sampleCount < HopSize
  }

  /** With a single matcher that always matches, reading an audio file to its end
      calls the callback as often as `TickAll` counts, and stops at the last, short
      hop with the end of the stream. */
  lemma {:induction false} RunTicks(e: Engine, src: Source, s: Settings, name: string, o: Outcome)
    requires |e.runs| == 1 && o.matched
    requires Ends(src.feed)
    ensures var r := RunToEnd(e, src, s, [name], [o]);
            var t := TickAll(e.counters, s, Counts(src.feed));
            && r.outcome == EndOfStream(s.name)
            && r.engine.counters == t.counters
            && |r.engine.problems| == |e.problems| + t.fired
    decreases |src.feed|
  {
    var h := StreamSpec.Hop(e, src, s, [name], [o]);
    HopTicks(e, src, s, name, o);
    assert Counts(src.feed)[1..] == Counts(src.feed[1..]);
    if h.outcome.Returned? {
      assert Ends(src.feed[1..]) by {
        var rest := src.feed[1..];
        assert |src.feed| > 1;
        forall i | 0 <= i < |rest| - 1
          ensures rest[i].Got? && rest[i].sampleCount >= HopSize
        {
          assert rest[i] == src.feed[i + 1];
        }
      }
      RunTicks(h.engine, h.source, s, name, o);
    } else {
      assert Counts(src.feed[1..]) == [];
    }
  }

  lemma RepeatCons(x: nat, k: nat)
    requires k > 0
    ensures Repeat(x, k) == [x] + Repeat(x, k - 1)
  {
    assert Repeat(x, k)[1..] == Repeat(x, k - 1);
  }

  lemma RepeatAdd(x: nat, j: nat, k: nat)
    ensures Repeat(x, j + k) == Repeat(x, j) + Repeat(x, k)
  {
    assert forall i :: 0 <= i < j + k ==> Repeat(x, j + k)[i] == (Repeat(x, j) + Repeat(x, k))[i];
  }

  /** Hops in sequence: the tallies add up. */
  lemma {:induction false} TickAllAppend(c: Counters, s: Settings, a: seq<nat>, b: seq<nat>)
    ensures var x := TickAll(c, s, a);
            var y := TickAll(x.counters, s, b);
            TickAll(c, s, a + b) == Tally(y.counters, x.fired + y.fired)
    decreases |a|
  {
    if a != [] {
      assert (a + b)[0] == a[0] && (a + b)[1..] == a[1..] + b;
      TickAllAppend(Tick(c, s, a[0]), s, a[1..], b);
    } else {
      assert a + b == b;
    }
  }

  /** Out of cooldown, full hops that stay within the timeout only add to the counter. */
  lemma {:induction false} Accumulate(m: nat, s: Settings, k: nat)
    requires !Exceeds(m + k * HopSize, s)
    ensures TickAll(Counters(false, 0, m), s, Repeat(HopSize, k)) == Tally(Counters(false, 0, m + k * HopSize), 0)
    decreases k
  {
    if k > 0 {
      RepeatCons(HopSize, k);
      assert (m + HopSize) as real <= (m + k * HopSize) as real;
      Accumulate(m + HopSize, s, k - 1);
      assert m + HopSize + (k - 1) * HopSize == m + k * HopSize;
    }
  }

  /** In cooldown, every hop whose cooldown counter before it is below the requirement
      is skipped: no callback, whatever the matcher says. */
  lemma {:induction false} Cooldown(q: nat, s: Settings, k: nat)
    requires k == 0 || ((q + (k - 1) * HopSize) as real) < s.requiredCooldown
    ensures TickAll(Counters(true, q, 0), s, Repeat(HopSize, k)) == Tally(Counters(true, q + k * HopSize, 0), 0)
    decreases k
  {
    if k > 0 {
      RepeatCons(HopSize, k);
      assert (q as real) <= (q + (k - 1) * HopSize) as real;
      if k > 1 {
        assert q + HopSize + (k - 2) * HopSize == q + (k - 1) * HopSize;
      }
      Cooldown(q + HopSize, s, k - 1);
      assert q + HopSize + (k - 1) * HopSize == q + k * HopSize;
    }
  }

  /** The number of full hops it takes to fire from a zero counter: the last of them
      takes the counter past the timeout, the one before did not. */
  predicate HopsToFire(f: nat, s: Settings)
  {
    f > 0 && !Exceeds((f - 1) * HopSize, s) && Exceeds(f * HopSize, s)
  }

  /** The number of full hops the cooldown skips: the cooldown counter before the last
      of them is still below the requirement, after it the requirement is met. */
  predicate HopsToRearm(d: nat, s: Settings)
  {
    (d == 0 || (((d - 1) * HopSize) as real) < s.requiredCooldown) && ((d * HopSize) as real) >= s.requiredCooldown
  }

  /** From a zero counter out of cooldown, the callback fires on the `f`-th full hop
      and not before, entering cooldown. */
  lemma FirstFire(s: Settings, f: nat)
    requires HopsToFire(f, s)
    ensures TickAll(Counters(false, 0, 0), s, Repeat(HopSize, f)) == Tally(Counters(true, 0, 0), 1)
  {
    assert Repeat(HopSize, f) == Repeat(HopSize, f - 1) + [HopSize];
    Accumulate(0, s, f - 1);
    TickAllAppend(Counters(false, 0, 0), s, Repeat(HopSize, f - 1), [HopSize]);
    assert (f - 1) * HopSize + HopSize == f * HopSize;
    assert TickAll(Counters(false, 0, (f - 1) * HopSize), s, [HopSize]) == Tally(Counters(true, 0, 0), 1);
  }

  /** Once the cooldown requirement is met, the stream behaves as if it had never
      left normal operation with a zero counter. */
  lemma Rearmed(q: nat, s: Settings, counts: seq<nat>)
    requires (q as real) >= s.requiredCooldown && counts != []
    ensures TickAll(Counters(true, q, 0), s, counts) == TickAll(Counters(false, 0, 0), s, counts)
  {
  }

  /** A fired callback is followed by `d` silent hops of cooldown and then, `f` hops
      later, by the next one: continued matching fires once per `d + f` full hops. */
  lemma Period(s: Settings, f: nat, d: nat)
    requires HopsToFire(f, s) && HopsToRearm(d, s)
    ensures TickAll(Counters(true, 0, 0), s, Repeat(HopSize, d + f)) == Tally(Counters(true, 0, 0), 1)
  {
    RepeatAdd(HopSize, d, f);
    Cooldown(0, s, d);
    TickAllAppend(Counters(true, 0, 0), s, Repeat(HopSize, d), Repeat(HopSize, f));
    Rearmed(d * HopSize, s, Repeat(HopSize, f));
    FirstFire(s, f);
  }

  /** Always matching, from a fresh stream: `n` full hops and a last short one with at
      least `f` full hops but the remainder of the audio inside the cooldown give
      exactly one callback. */
  lemma SingleCallback(s: Settings, f: nat, n: nat, short: nat)
    requires HopsToFire(f, s) && f <= n && short < HopSize
    requires (((n - f) * HopSize) as real) < s.requiredCooldown
    ensures TickAll(Counters(false, 0, 0), s, Repeat(HopSize, n) + [short]).fired == 1
  {
    RepeatAdd(HopSize, f, n - f);
    assert Repeat(HopSize, n) + [short] == Repeat(HopSize, f) + (Repeat(HopSize, n - f) + [short]);
    FirstFire(s, f);
    TickAllAppend(Counters(false, 0, 0), s, Repeat(HopSize, f), Repeat(HopSize, n - f) + [short]);
    if n - f > 0 {
      assert (((n - f - 1) * HopSize) as real) <= (((n - f) * HopSize) as real);
    }
    Cooldown(0, s, n - f);
    TickAllAppend(Counters(true, 0, 0), s, Repeat(HopSize, n - f), [short]);
  }

  /** Always matching, from a fresh stream: at least `f` hops, the `d` hops of
      cooldown and `f` more give at least two callbacks. */
  lemma TwoCallbacks(s: Settings, f: nat, d: nat, n: nat, short: nat)
    requires HopsToFire(f, s) && HopsToRearm(d, s) && 2 * f + d <= n
    ensures TickAll(Counters(false, 0, 0), s, Repeat(HopSize, n) + [short]).fired >= 2
  {
    var rest := Repeat(HopSize, n - 2 * f - d) + [short];
    RepeatAdd(HopSize, f, d + f);
    RepeatAdd(HopSize, 2 * f + d, n - 2 * f - d);
    assert Repeat(HopSize, n) + [short] == Repeat(HopSize, f) + (Repeat(HopSize, d + f) + rest);
    FirstFire(s, f);
    Period(s, f, d);
    TickAllAppend(Counters(false, 0, 0), s, Repeat(HopSize, f), Repeat(HopSize, d + f) + rest);
    TickAllAppend(Counters(true, 0, 0), s, Repeat(HopSize, d + f), rest);
  }

  /** The full hops to fire for a whole number of seconds of timeout: one hop more
      than fit in the timeout. */
  lemma WholeSecondsToFire(s: Settings, t: nat)
    requires s.timeout == t as real
    ensures HopsToFire(t * s.samplerate / HopSize + 1, s)
  {
    var x := t * s.samplerate;
    var f := x / HopSize + 1;
    assert (f - 1) * HopSize <= x < f * HopSize;
    assert s.timeout * s.samplerate as real == x as real;
  }

  /** The full hops the cooldown skips for a whole number of seconds of cooldown: the
      fewest hops covering it. */
  lemma WholeSecondsToRearm(s: Settings, c: nat)
    requires s.requiredCooldown == (c * s.samplerate) as real
    ensures HopsToRearm((c * s.samplerate + HopSize - 1) / HopSize, s)
  {
    var x := c * s.samplerate;
    var d := (x + HopSize - 1) / HopSize;
    assert d * HopSize >= x;
    assert d == 0 || (d - 1) * HopSize < x;
  }

  /** A stream with one always-matching matcher, a timeout of one second and the
      default cooldown of an hour, reading an audio file longer than one second plus
      one hop and shorter than an hour: exactly one callback, for this stream and that
      matcher, then the end of the stream. */
  lemma OneSecondTimeoutCallsOnce(e: Engine, src: Source, s: Settings, name: string, o: Outcome, n: nat)
    requires e.counters == Counters(false, 0, 0) && e.problems == [] && |e.runs| == 1 && o.matched
    requires s.timeout == 1.0 && s.requiredCooldown == (3600 * s.samplerate) as real
    requires Ends(src.feed) && |src.feed| == n + 1
    requires forall i :: 0 <= i < n ==> src.feed[i].sampleCount == HopSize
    requires s.samplerate < n * HopSize <= 3600 * s.samplerate
    ensures var r := RunToEnd(e, src, s, [name], [o]);
            && r.outcome == EndOfStream(s.name)
            && |r.engine.problems| == 1
            && r.engine.problems[0].stream == s.name && r.engine.problems[0].matcher == name
  {
    var f := s.samplerate / HopSize + 1;
    WholeSecondsToFire(s, 1);
    assert f <= n;
    var short := src.feed[n].sampleCount;
    assert Counts(src.feed) == Repeat(HopSize, n) + [short];
    SingleCallback(s, f, n, short);
    RunTicks(e, src, s, name, o);
    RunProblemsNamed(e, src, s, [name], [o]);
  }

  /** A stream with one always-matching matcher, a timeout and a cooldown of five
      seconds each, reading an audio file long enough to fire, cool down and fire
      again: at least two callbacks, each for this stream and that matcher. */
  lemma FiveSecondCooldownCallsTwice(e: Engine, src: Source, s: Settings, name: string, o: Outcome, n: nat)
    requires e.counters == Counters(false, 0, 0) && e.problems == [] && |e.runs| == 1 && o.matched
    requires s.timeout == 5.0 && s.requiredCooldown == (5 * s.samplerate) as real
    requires Ends(src.feed) && |src.feed| == n + 1
    requires forall i :: 0 <= i < n ==> src.feed[i].sampleCount == HopSize
    requires 2 * (5 * s.samplerate / HopSize + 1) + (5 * s.samplerate + HopSize - 1) / HopSize <= n
    ensures var r := RunToEnd(e, src, s, [name], [o]);
            && r.outcome == EndOfStream(s.name)
            && |r.engine.problems| >= 2
            && forall p :: p in r.engine.problems ==> p.stream == s.name && p.matcher == name
  {
    WholeSecondsToFire(s, 5);
    WholeSecondsToRearm(s, 5);
    var short := src.feed[n].sampleCount;
    assert Counts(src.feed) == Repeat(HopSize, n) + [short];
    TwoCallbacks(s, 5 * s.samplerate / HopSize + 1, (5 * s.samplerate + HopSize - 1) / HopSize, n, short);
    RunTicks(e, src, s, name, o);
    RunProblemsNamed(e, src, s, [name], [o]);
  }
}
