/** A monitored stream: its source, its window of recent frames, its matchers and
    the cooldown and match counters, updated hop by hop as `StreamSpec.Hop` says. */
module Streams {
  import opened Wrappers
  import opened Matchers
  import opened StreamSpec

  class Stream {
    const name: string
    const url: string
    const timeout: real
    const cooldown: real
    /** `_required_cooldown_sample_count`: the cooldown in samples. */
    const requiredCooldownSampleCount: real
    const precedingDuration: real
    /** The source's sample rate, fixed when it is opened. */
    const samplerate: Samplerate
    /** The window's `maxlen`. */
    const capacity: nat
    const matchers: seq<Matcher>

    var window: seq<Frame>
    var inCooldown: bool
    var cooldownSampleCount: nat
    var matchSampleCount: nat
    /** The problem callback's calls, in order. */
    var problems: seq<Problem>
    /** What the source will deliver from now on. */
    var feed: seq<Read>
    /** The opens and closes of the source so far. */
    var events: seq<SourceEvent>

    function Settings(): Settings
    {
      StreamSpec.Settings(name, samplerate, timeout, requiredCooldownSampleCount, capacity)
    }

    function Names(): (r: seq<string>)
      ensures |r| == |matchers|
    {
      seq(|matchers|, k requires 0 <= k < |matchers| => matchers[k].name)
    }

    ghost function Runs(): (r: seq<Run>)
      reads matchers
      ensures |r| == |matchers| && forall k :: 0 <= k < |matchers| ==> r[k] == matchers[k].State()
    {
      seq(|matchers|, k requires 0 <= k < |matchers| reads matchers => matchers[k].State())
    }

    ghost function EngineState(): Engine
      reads this, matchers
    {
      Engine(window, Counters(inCooldown, cooldownSampleCount, matchSampleCount), Runs(), problems)
    }

    function SourceState(): Source
      reads this
    {
      Source(url, feed, events)
    }

    ghost predicate Valid()
      reads this, matchers
    {
      && (forall i, j :: 0 <= i < j < |matchers| ==> matchers[i] != matchers[j])
      && (forall k :: 0 <= k < |matchers| ==> matchers[k].Valid())
      && |window| <= capacity
    }

    /** The class invariant is the specification's invariant of the engine. */
    lemma ValidEngine()
      requires Valid()
      ensures EngineValid(EngineState(), Settings())
    {
    }

    /** `Stream(...)`: the source opened, the window's capacity and the cooldown
        requirement fixed from the configuration and the sample rate, no cooldown and
        no match yet. */
    constructor(name: string, url: string, timeout: real, cooldown: real, precedingDuration: real,
                matchers: seq<Matcher>, samplerate: Samplerate, feed: seq<Read>)
      requires (precedingDuration + timeout) * samplerate as real > -(HopSize as real)
      requires forall i, j :: 0 <= i < j < |matchers| ==> matchers[i] != matchers[j]
      requires forall k :: 0 <= k < |matchers| ==> matchers[k].Valid()
      ensures this.name == name && this.url == url && this.timeout == timeout && this.cooldown == cooldown
      ensures this.precedingDuration == precedingDuration && this.matchers == matchers && this.samplerate == samplerate
      ensures requiredCooldownSampleCount == cooldown * samplerate as real
      ensures capacity == WindowCapacity(precedingDuration, timeout, samplerate)
      ensures window == [] && !inCooldown && cooldownSampleCount == 0 && matchSampleCount == 0 && problems == []
      ensures this.feed == feed && events == [StreamSpec.Open(url)]
      ensures Valid()
    {
      this.name := name;
      this.url := url;
      this.timeout := timeout;
      this.cooldown := cooldown;
      this.precedingDuration := precedingDuration;
      this.matchers := matchers;
      this.samplerate := samplerate;
      this.feed := feed;
      this.events := [StreamSpec.Open(url)];
      this.requiredCooldownSampleCount := cooldown * samplerate as real;
      this.capacity := WindowCapacity(precedingDuration, timeout, samplerate);
      this.cooldownSampleCount := 0;
      this.inCooldown := false;
      this.matchSampleCount := 0;
      this.window := [];
      this.problems := [];
      new;
      assert forall k :: 0 <= k < |matchers| ==> Consistent(Runs()[k]);
    }

    /** `close`: closes the source. */
    method Close()
      modifies this
      ensures events == old(events) + [StreamSpec.Close]
      ensures feed == old(feed) && window == old(window) && problems == old(problems)
      ensures inCooldown == old(inCooldown) && cooldownSampleCount == old(cooldownSampleCount)
      ensures matchSampleCount == old(matchSampleCount)
    {
      events := events + [StreamSpec.Close];
    }

    /** `_open`: opens the source at the stream's URL. */
    method Open()
      modifies this
      ensures events == old(events) + [StreamSpec.Open(url)]
      ensures feed == old(feed) && window == old(window) && problems == old(problems)
      ensures inCooldown == old(inCooldown) && cooldownSampleCount == old(cooldownSampleCount)
      ensures matchSampleCount == old(matchSampleCount)
    {
      events := events + [StreamSpec.Open(url)];
    }

    /** One call of the source. */
    method PullSource() returns (r: Read)
      modifies this
      ensures (r, feed) == Pull(old(feed))
      ensures events == old(events) && window == old(window) && problems == old(problems)
      ensures inCooldown == old(inCooldown) && cooldownSampleCount == old(cooldownSampleCount)
      ensures matchSampleCount == old(matchSampleCount)
    {
      if feed == [] {
        r := Got([], 0);
      } else {
        r := feed[0];
        feed := feed[1..];
      }
    }

    /** The read at the top of `process_hop`: on a `RuntimeError`, close the source,
        reopen it and read once more; a second error propagates. */
    method FetchHop() returns (read: Read)
      modifies this
      ensures Fetched(read, SourceState()) == Fetch(old(SourceState()))
      ensures window == old(window) && problems == old(problems)
      ensures inCooldown == old(inCooldown) && cooldownSampleCount == old(cooldownSampleCount)
      ensures matchSampleCount == old(matchSampleCount)
    {
      read := PullSource();
      if read.ReadError? {
        Close();
        Open();
        read := PullSource();
      }
    }

    /** `process_hop`, with `outcomes` the matchers' own outcomes for this hop. */
    method ProcessHop(outcomes: seq<Outcome>) returns (r: HopOutcome)
      requires Valid() && |outcomes| == |matchers|
      modifies this, matchers
      ensures Step(EngineState(), SourceState(), r) == StreamSpec.Hop(old(EngineState()), old(SourceState()), Settings(), Names(), outcomes)
      ensures Valid()
    {
      var read := FetchHop();
      if read.ReadError? {
        return ReadFailed;
      }
      PushBounded(window, read.samples, capacity);
      window := Push(window, read.samples, capacity);
      var data := ProcessSamples(read.samples, read.sampleCount, outcomes);
      if read.sampleCount < HopSize {
        return EndOfStream(name);
      }
      return Returned(data);
    }

    /** One iteration's counting after a matcher's outcome: a match adds the hop's
        samples and, past the timeout, calls the problem callback with the whole window,
        enters cooldown and zeroes the counter; a miss zeroes the counter. The callback
        is taken to return. */
    method Tally(matcherName: string, o: Outcome, sampleCount: nat, ghost problems0: seq<Problem>, ghost prev: Scan)
      returns (ghost next: Scan)
      requires prev.count == matchSampleCount && prev.triggered == inCooldown && problems == problems0 + prev.problems
      modifies this
      ensures next == ScanStep(Settings(), window, sampleCount, prev, matcherName, o)
      ensures matchSampleCount == next.count && inCooldown == next.triggered && problems == problems0 + next.problems
      ensures window == old(window) && feed == old(feed) && events == old(events)
      ensures cooldownSampleCount == old(cooldownSampleCount)
    {
      next := ScanStep(Settings(), window, sampleCount, prev, matcherName, o);
      if o.matched {
        matchSampleCount := matchSampleCount + sampleCount;
        var seconds := matchSampleCount as real / samplerate as real;
        TriggerInSamples(matchSampleCount, samplerate, timeout);
        if seconds > timeout {
          problems := problems + [Problem(name, matcherName, window)];
          inCooldown := true;
          matchSampleCount := 0;
        }
      } else {
        matchSampleCount := 0;
      }
    }

    /** `_process_samples`: the cooldown gate, then the matcher loop. */
    method ProcessSamples(samples: Frame, sampleCount: nat, outcomes: seq<Outcome>) returns (data: Option<HopData>)
      requires Valid() && |outcomes| == |matchers|
      modifies this, matchers
      ensures Processed(EngineState(), data)
                == StreamSpec.ProcessSamples(old(EngineState()), Settings(), Names(), samples, sampleCount, outcomes)
      ensures feed == old(feed) && events == old(events)
      ensures Valid()
    {
      if inCooldown {
        var currentCount := cooldownSampleCount;
        cooldownSampleCount := cooldownSampleCount + sampleCount;
        if (currentCount as real) < requiredCooldownSampleCount {
          return None;
        }
      }
      ghost var e0 := old(EngineState());
      ghost var scan := ScanMatchers(Settings(), window, sampleCount, matchSampleCount, Names(), outcomes);
      inCooldown := false;
      cooldownSampleCount := 0;
      assert Runs() == e0.runs;
      var values := EvaluateMatchers(samples, sampleCount, outcomes);
      data := Some(HopData(sampleCount as real / samplerate as real, values));
      ghost var after := EngineState();
      assert after.runs == BookkeepAll(e0.runs, samples, sampleCount, outcomes);
      assert after.counters == Counters(scan.triggered, 0, scan.count);
      assert after.problems == e0.problems + scan.problems;
      ProcessedWhenEvaluated(e0, Settings(), Names(), samples, sampleCount, outcomes, after, data);
    }

    /** The matcher loop of `_process_samples`: each matcher in turn keeps its run, its
        value goes into the dict under its name, and the shared counter is tallied. */
    method EvaluateMatchers(samples: Frame, sampleCount: nat, outcomes: seq<Outcome>) returns (values: map<string, Score>)
      requires |outcomes| == |matchers| && !inCooldown
      requires forall i, j :: 0 <= i < j < |matchers| ==> matchers[i] != matchers[j]
      requires forall k :: 0 <= k < |matchers| ==> matchers[k].Valid()
      modifies this, matchers
      ensures var scan := ScanMatchers(Settings(), window, sampleCount, old(matchSampleCount), Names(), outcomes);
              && matchSampleCount == scan.count && inCooldown == scan.triggered
              && problems == old(problems) + scan.problems && values == scan.data
      ensures Runs() == BookkeepAll(old(Runs()), samples, sampleCount, outcomes)
      ensures forall k :: 0 <= k < |matchers| ==> matchers[k].Valid()
      ensures window == old(window) && feed == old(feed) && events == old(events)
      ensures cooldownSampleCount == old(cooldownSampleCount)
    {
      ghost var names := Names();
      ghost var count0 := matchSampleCount;
      ghost var problems0 := problems;
      ghost var runs0 := Runs();
      ghost var runs1 := BookkeepAll(runs0, samples, sampleCount, outcomes);
      BookkeptValid(runs0, runs1, samples, sampleCount, outcomes);
      ghost var scan := Scan(matchSampleCount, false, [], map[]);
      values := map[];
      var j := 0;
      while j < |matchers|
        invariant 0 <= j <= |matchers|
        invariant window == old(window) && feed == old(feed) && events == old(events)
        invariant cooldownSampleCount == old(cooldownSampleCount)
        invariant scan == ScanMatchers(Settings(), window, sampleCount, count0, names[..j], outcomes[..j])
        invariant scan.count == matchSampleCount && scan.triggered == inCooldown
        invariant problems == problems0 + scan.problems && scan.data == values
        invariant forall k :: 0 <= k < |matchers| ==> matchers[k].State() == if k < j then runs1[k] else runs0[k]
      {
        var matcher := matchers[j];
        ScanMatchersSnoc(Settings(), window, sampleCount, count0, names, outcomes, j);
        var o := matcher.ProcessSamples(samples, sampleCount, outcomes[j]);
        values := values[matcher.name := o.value];
        scan := Tally(matcher.name, o, sampleCount, problems0, scan);
        j := j + 1;
      }
      assert names[..j] == names && outcomes[..j] == outcomes;
      assert Runs() == runs1;
    }
  }

  /** Keeping each run as `Bookkeep` says keeps every run consistent. */
  lemma BookkeptValid(runs0: seq<Run>, runs1: seq<Run>, samples: Frame, sampleCount: nat, outcomes: seq<Outcome>)
    requires |runs0| == |outcomes| == |runs1|
    requires forall k :: 0 <= k < |runs0| ==> runs1[k] == Bookkeep(runs0[k], samples, sampleCount, outcomes[k].matched)
    requires forall k :: 0 <= k < |runs0| ==> Consistent(runs0[k])
    ensures forall k :: 0 <= k < |runs1| ==> Consistent(runs1[k])
  {
    forall k | 0 <= k < |runs0|
      ensures Consistent(runs1[k])
    {
      BookkeepKeepsConsistent(runs0[k], samples, sampleCount, outcomes[k].matched);
    }
  }
}
