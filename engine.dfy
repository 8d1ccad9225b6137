/** The per-hop behaviour of a monitored stream as functions of its state: the
    bounded window of recent frames, the cooldown gate, the shared match counter
    that fires the problem callback, the reconnect-once read and the end of the
    stream on a short hop. The `Stream` class is proved against these. */
module StreamSpec {
  import opened Wrappers
  import opened Matchers

  /** The source's `hop_size`. */
  const HopSize: nat := 2048

  /** The source's sample rate, samples per second. */
  type Samplerate = r: nat | r > 0 witness 1

  /** `math.ceil` of a real. */
  function Ceil(x: real): (r: int)
    ensures x <= r as real < x + 1.0
  {
    -((-x).Floor)
  }

  /** The window's `maxlen`: the fewest whole hops covering the preceding duration
      and the timeout together. A sum below zero by less than one hop's worth of
      samples still gives a `maxlen` of 0; only a lower sum makes `deque` raise. */
  function WindowCapacity(precedingDuration: real, timeout: real, samplerate: Samplerate): (cap: nat)
    requires (precedingDuration + timeout) * samplerate as real > -(HopSize as real)
    ensures (precedingDuration + timeout) * samplerate as real <= (cap * HopSize) as real
    ensures cap == 0 || ((cap - 1) * HopSize) as real < (precedingDuration + timeout) * samplerate as real
  {
    Ceil((precedingDuration + timeout) * samplerate as real / HopSize as real)
  }

  /** A negative duration sum within one hop gives a window that keeps nothing. */
  lemma NegativeSumEmptyWindow(precedingDuration: real, timeout: real, samplerate: Samplerate)
    requires -(HopSize as real) < (precedingDuration + timeout) * samplerate as real <= 0.0
    ensures WindowCapacity(precedingDuration, timeout, samplerate) == 0
  {
  }

  /** `deque.append` on a deque with `maxlen` `capacity`: the frame goes at the end
      and, when the deque is full, the oldest frame is dropped. */
  function Push(window: seq<Frame>, frame: Frame, capacity: nat): seq<Frame>
  {
    var all := window + [frame];
    if |all| <= capacity then all else all[|all| - capacity..]
  }

  /** The newest `n` items. */
  function LastN<T>(s: seq<T>, n: nat): (r: seq<T>)
    ensures |r| <= n && |r| <= |s|
  {
    if |s| <= n then s else s[|s| - n..]
  }

  /** The frames pushed in order, starting from `window`. */
  function PushAll(window: seq<Frame>, frames: seq<Frame>, capacity: nat): seq<Frame>
    decreases |frames|
  {
    if frames == [] then window
    else Push(PushAll(window, frames[..|frames| - 1], capacity), frames[|frames| - 1], capacity)
  }

  /** A window that starts empty holds the newest `capacity` frames pushed into it, in
      arrival order: never more than `capacity`, the oldest dropped first. */
  lemma {:induction false} WindowHoldsNewest(frames: seq<Frame>, capacity: nat)
    ensures PushAll([], frames, capacity) == LastN(frames, capacity)
    decreases |frames|
  {
    if frames != [] {
      var n := |frames| - 1;
      WindowHoldsNewest(frames[..n], capacity);
      PushLastN(frames[..n], frames[n], capacity);
      assert frames[..n] + [frames[n]] == frames;
    }
  }

  lemma PushLastN(s: seq<Frame>, x: Frame, capacity: nat)
    ensures Push(LastN(s, capacity), x, capacity) == LastN(s + [x], capacity)
  {
    var all := s + [x];
    if |all| > capacity && |s| > capacity {
      assert LastN(s, capacity) + [x] == all[|all| - capacity - 1..];
      assert (LastN(s, capacity) + [x])[1..] == all[|all| - capacity..];
    }
  }

  /** A push onto a window within its capacity keeps it within its capacity, and the
      newest frame is the one pushed. */
  lemma PushBounded(window: seq<Frame>, frame: Frame, capacity: nat)
    requires |window| <= capacity
    ensures |Push(window, frame, capacity)| == if |window| < capacity then |window| + 1 else capacity
    ensures capacity > 0 ==> Push(window, frame, capacity)[|Push(window, frame, capacity)| - 1] == frame
    ensures |window| < capacity ==> Push(window, frame, capacity) == window + [frame]
    ensures 0 < |window| == capacity ==> Push(window, frame, capacity) == window[1..] + [frame]
  {
    if 0 < |window| == capacity {
      assert (window + [frame])[1..] == window[1..] + [frame];
    }
  }

  /** What the problem callback receives: the stream's name, the matcher's name and the
      audio written to the clip file, which is the whole window. */
  datatype Problem = Problem(stream: string, matcher: string, clip: seq<Frame>)

  /** `_in_cooldown`, `_cooldown_sample_count` and `_match_sample_count`. */
  datatype Counters = Counters(inCooldown: bool, cooldownSampleCount: nat, matchSampleCount: nat)

  /** What a stream fixes at construction: its name, the source's sample rate, the
      timeout in seconds, the cooldown in samples (`_required_cooldown_sample_count`,
      the cooldown times the sample rate) and the window's capacity. */
  datatype Settings = Settings(name: string, samplerate: Samplerate, timeout: real, requiredCooldown: real, capacity: nat)

  /** A sample count in seconds. */
  function Seconds(count: nat, samplerate: Samplerate): real
  {
    count as real / samplerate as real
  }

  /** The trigger compares seconds with the timeout; in samples, the count must exceed
      the timeout times the sample rate. */
  lemma TriggerInSamples(count: nat, samplerate: Samplerate, timeout: real)
    ensures Seconds(count, samplerate) > timeout <==> count as real > timeout * samplerate as real
  {
    var sr := samplerate as real;
    assert Seconds(count, samplerate) * sr == count as real;
    if Seconds(count, samplerate) > timeout {
      assert Seconds(count, samplerate) * sr > timeout * sr;
    } else {
      assert Seconds(count, samplerate) * sr <= timeout * sr;
    }
  }

  /** The trigger: the counter, in seconds, exceeds the timeout. Stated in samples,
      which `TriggerInSamples` shows is the same. */
  predicate Exceeds(count: nat, s: Settings)
  {
    count as real > s.timeout * s.samplerate as real
  }

  /** Whether the hop is skipped: in cooldown and the cooldown counter, before this
      hop is added, still below the requirement. */
  predicate Skips(c: Counters, s: Settings)
  {
    c.inCooldown && (c.cooldownSampleCount as real) < s.requiredCooldown
  }

  /** The matcher loop so far: the shared counter, whether the callback fired, the
      problems reported and the `data` dict. */
  datatype Scan = Scan(count: nat, triggered: bool, problems: seq<Problem>, data: map<string, Score>)

  /** One iteration of the matcher loop, given that matcher's outcome. Writing the clip
      and calling the problem callback are taken to return. */
  function ScanStep(s: Settings, window: seq<Frame>, sampleCount: nat, prev: Scan, name: string, o: Outcome): Scan
  {
    var data := prev.data[name := o.value];
    if !o.matched then Scan(0, prev.triggered, prev.problems, data)
    else
      var count := prev.count + sampleCount;
      if Exceeds(count, s) then Scan(0, true, prev.problems + [Problem(s.name, name, window)], data)
      else Scan(count, prev.triggered, prev.problems, data)
  }

  /** The matcher loop over the matchers' names and outcomes, in order, from the
      counter `count`. */
  function ScanMatchers(s: Settings, window: seq<Frame>, sampleCount: nat, count: nat, names: seq<string>, outcomes: seq<Outcome>): Scan
    requires |names| == |outcomes|
    decreases |names|
  {
    if names == [] then Scan(count, false, [], map[])
    else
      var n := |names| - 1;
      ScanStep(s, window, sampleCount, ScanMatchers(s, window, sampleCount, count, names[..n], outcomes[..n]), names[n], outcomes[n])
  }

  /** One more matcher extends the loop by one step. */
  lemma ScanMatchersSnoc(s: Settings, window: seq<Frame>, sampleCount: nat, count: nat, names: seq<string>, outcomes: seq<Outcome>, j: nat)
    requires |names| == |outcomes| && j < |names|
    ensures ScanMatchers(s, window, sampleCount, count, names[..j + 1], outcomes[..j + 1])
              == ScanStep(s, window, sampleCount, ScanMatchers(s, window, sampleCount, count, names[..j], outcomes[..j]), names[j], outcomes[j])
  {
    assert names[..j + 1][..j] == names[..j] && outcomes[..j + 1][..j] == outcomes[..j];
  }

  /** The callback fired during the loop exactly when a problem was reported, and
      every problem names this stream, one of the matchers, and carries the window. */
  lemma {:induction false} ScanProblems(s: Settings, window: seq<Frame>, sampleCount: nat, count: nat, names: seq<string>, outcomes: seq<Outcome>)
    requires |names| == |outcomes|
    ensures var r := ScanMatchers(s, window, sampleCount, count, names, outcomes);
            && (r.triggered <==> r.problems != [])
            && |r.problems| <= |names|
            && forall p :: p in r.problems ==> p.stream == s.name && p.matcher in names && p.clip == window
    decreases |names|
  {
    if names != [] {
      var n := |names| - 1;
      ScanProblems(s, window, sampleCount, count, names[..n], outcomes[..n]);
      assert forall x :: x in names[..n] ==> x in names;
    }
  }

  /** When no matcher matches, nothing is reported and the counter ends at zero (or
      stays as it was with no matchers at all). */
  lemma {:induction false} ScanWithoutMatch(s: Settings, window: seq<Frame>, sampleCount: nat, count: nat, names: seq<string>, outcomes: seq<Outcome>)
    requires |names| == |outcomes|
    requires forall k :: 0 <= k < |outcomes| ==> !outcomes[k].matched
    ensures var r := ScanMatchers(s, window, sampleCount, count, names, outcomes);
            && r.problems == [] && !r.triggered
            && r.count == if names == [] then count else 0
    decreases |names|
  {
    if names != [] {
      var n := |names| - 1;
      ScanWithoutMatch(s, window, sampleCount, count, names[..n], outcomes[..n]);
    }
  }

  /** No later position holds the same name as position `k`. */
  predicate LastOf(names: seq<string>, k: nat)
  {
    forall j :: k < j < |names| ==> names[j] != names[k]
  }

  /** The `data` dict has one entry per matcher name, holding the outcome value of the
      last matcher of that name. */
  lemma {:induction false} ScanData(s: Settings, window: seq<Frame>, sampleCount: nat, count: nat, names: seq<string>, outcomes: seq<Outcome>)
    requires |names| == |outcomes|
    ensures var r := ScanMatchers(s, window, sampleCount, count, names, outcomes);
            && (forall x :: x in r.data <==> x in names)
            && forall k :: 0 <= k < |names| && LastOf(names, k) ==> r.data[names[k]] == outcomes[k].value
    decreases |names|
  {
    if names != [] {
      var n := |names| - 1;
      var prev := ScanMatchers(s, window, sampleCount, count, names[..n], outcomes[..n]);
      ScanData(s, window, sampleCount, count, names[..n], outcomes[..n]);
      ScanStepData(s, window, sampleCount, prev, names[n], outcomes[n]);
      DataSnoc(prev.data, names[..n], outcomes[..n], names[n], outcomes[n]);
      HeadTailOf(names);
      HeadTailOf(outcomes);
    }
  }

  lemma ScanStepData(s: Settings, window: seq<Frame>, sampleCount: nat, prev: Scan, name: string, o: Outcome)
    ensures ScanStep(s, window, sampleCount, prev, name, o).data == prev.data[name := o.value]
  {
  }

  /** One more entry in the dict, for one more name. */
  lemma DataSnoc(prevData: map<string, Score>, prevNames: seq<string>, prevOutcomes: seq<Outcome>, name: string, o: Outcome)
    requires |prevNames| == |prevOutcomes|
    requires forall x :: x in prevData <==> x in prevNames
    requires forall k :: 0 <= k < |prevNames| && LastOf(prevNames, k) ==> prevData[prevNames[k]] == prevOutcomes[k].value
    ensures var names := prevNames + [name];
            var data := prevData[name := o.value];
            && (forall x :: x in data <==> x in names)
            && forall k :: 0 <= k < |names| && LastOf(names, k) ==> data[names[k]] == (prevOutcomes + [o])[k].value
  {
    var names := prevNames + [name];
    var data := prevData[name := o.value];
    forall x
      ensures x in data <==> x in names
    {
      assert x in names <==> x in prevNames || x == name;
    }
    forall k | 0 <= k < |names| && LastOf(names, k)
      ensures data[names[k]] == (prevOutcomes + [o])[k].value
    {
      if k < |prevNames| {
        assert names[k] == prevNames[k] && names[|prevNames|] == name;
        assert LastOf(prevNames, k) by {
          forall j | k < j < |prevNames|
            ensures prevNames[j] != prevNames[k]
          {
            assert names[j] == prevNames[j];
          }
        }
      }
    }
  }

  lemma HeadTailOf<T>(xs: seq<T>)
    requires xs != []
    ensures xs == xs[..|xs| - 1] + [xs[|xs| - 1]]
  {
  }

  /** A single matcher: the counter adds the hop's samples on a match and fires once
      the total exceeds the timeout, which zeroes it; a miss zeroes it. */
  lemma OneMatcher(s: Settings, window: seq<Frame>, sampleCount: nat, count: nat, name: string, o: Outcome)
    ensures var r := ScanMatchers(s, window, sampleCount, count, [name], [o]);
            && (!o.matched ==> r.count == 0 && r.problems == [])
            && (o.matched && Exceeds(count + sampleCount, s) ==>
                  r.count == 0 && r.triggered && r.problems == [Problem(s.name, name, window)])
            && (o.matched && !Exceeds(count + sampleCount, s) ==>
                  r.count == count + sampleCount && !r.triggered && r.problems == [])
  {
    assert [name][..0] == [] && [o][..0] == [];
  }

  /** The shared state the hop changes, with each matcher's run. */
  datatype Engine = Engine(window: seq<Frame>, counters: Counters, runs: seq<Run>, problems: seq<Problem>)

  /** The pair `process_hop` returns: the hop's duration in seconds and the `data` dict. */
  datatype HopData = HopData(seconds: real, values: map<string, Score>)

  datatype Processed = Processed(engine: Engine, data: Option<HopData>)

  /** Every matcher's run after the hop, each with its own outcome. */
  function BookkeepAll(runs: seq<Run>, samples: Frame, sampleCount: nat, outcomes: seq<Outcome>): (r: seq<Run>)
    requires |runs| == |outcomes|
    ensures |r| == |runs|
  {
    seq(|runs|, k requires 0 <= k < |runs| => Bookkeep(runs[k], samples, sampleCount, outcomes[k].matched))
  }

  /** `_process_samples`: a skipped hop only advances the cooldown counter; otherwise
      the cooldown ends, every matcher keeps its run and the loop runs. */
  function ProcessSamples(e: Engine, s: Settings, names: seq<string>, samples: Frame, sampleCount: nat, outcomes: seq<Outcome>): Processed
    requires |names| == |outcomes| == |e.runs|
  {
    var c := e.counters;
    if Skips(c, s) then
      Processed(e.(counters := c.(cooldownSampleCount := c.cooldownSampleCount + sampleCount)), None)
    else
      var r := ScanMatchers(s, e.window, sampleCount, c.matchSampleCount, names, outcomes);
      Processed(Engine(e.window, Counters(r.triggered, 0, r.count), BookkeepAll(e.runs, samples, sampleCount, outcomes), e.problems + r.problems),
                Some(HopData(Seconds(sampleCount, s.samplerate), r.data)))
  }

  /** The state after an evaluated hop, assembled from its parts. */
  lemma ProcessedWhenEvaluated(e: Engine, s: Settings, names: seq<string>, samples: Frame, sampleCount: nat,
                               outcomes: seq<Outcome>, after: Engine, data: Option<HopData>)
    requires |names| == |outcomes| == |e.runs|
    requires !Skips(e.counters, s)
    requires var r := ScanMatchers(s, e.window, sampleCount, e.counters.matchSampleCount, names, outcomes);
             && after.window == e.window && after.counters == Counters(r.triggered, 0, r.count)
             && after.problems == e.problems + r.problems
             && data == Some(HopData(Seconds(sampleCount, s.samplerate), r.data))
    requires after.runs == BookkeepAll(e.runs, samples, sampleCount, outcomes)
    ensures ProcessSamples(e, s, names, samples, sampleCount, outcomes) == Processed(after, data)
  {
  }

  /** During cooldown, until the requirement is reached, a hop evaluates no matcher,
      reports nothing and returns nothing: only the cooldown counter grows. */
  lemma CooldownSuppresses(e: Engine, s: Settings, names: seq<string>, samples: Frame, sampleCount: nat, outcomes: seq<Outcome>)
    requires |names| == |outcomes| == |e.runs|
    requires Skips(e.counters, s)
    ensures var p := ProcessSamples(e, s, names, samples, sampleCount, outcomes);
            && p.data.None?
            && p.engine.problems == e.problems && p.engine.runs == e.runs && p.engine.window == e.window
            && p.engine.counters.inCooldown
            && p.engine.counters.cooldownSampleCount == e.counters.cooldownSampleCount + sampleCount
            && p.engine.counters.matchSampleCount == e.counters.matchSampleCount
  {
  }

  /** When the matchers are evaluated, the cooldown counter ends at zero, the cooldown
      flag is set exactly when a problem was reported, each matcher's run is kept as
      `Bookkeep` says, and the data is the hop's duration with the loop's dict. */
  lemma Evaluated(e: Engine, s: Settings, names: seq<string>, samples: Frame, sampleCount: nat, outcomes: seq<Outcome>)
    requires |names| == |outcomes| == |e.runs|
    requires !Skips(e.counters, s)
    ensures var p := ProcessSamples(e, s, names, samples, sampleCount, outcomes);
            var r := ScanMatchers(s, e.window, sampleCount, e.counters.matchSampleCount, names, outcomes);
            && p.engine.counters.cooldownSampleCount == 0
            && (p.engine.counters.inCooldown <==> |p.engine.problems| > |e.problems|)
            && p.engine.problems[..|e.problems|] == e.problems
            && p.data == Some(HopData(Seconds(sampleCount, s.samplerate), r.data))
            && |p.engine.runs| == |e.runs|
            && forall k :: 0 <= k < |e.runs| ==> p.engine.runs[k] == Bookkeep(e.runs[k], samples, sampleCount, outcomes[k].matched)
  {
    ScanProblems(s, e.window, sampleCount, e.counters.matchSampleCount, names, outcomes);
  }

  /** The audio source's reads: a frame with its sample count, or a `RuntimeError`. */
  datatype Read = Got(samples: Frame, sampleCount: nat) | ReadError

  /** What the stream does to its source. */
  datatype SourceEvent = Open(url: string) | Close

  /** The source: its URL, the reads it will deliver from now on (across reopenings)
      and the opens and closes so far. */
  datatype Source = Source(url: string, feed: seq<Read>, events: seq<SourceEvent>)

  /** One read of the source; past the end of the feed it delivers no samples. */
  function Pull(feed: seq<Read>): (Read, seq<Read>)
  {
    if feed == [] then (Got([], 0), []) else (feed[0], feed[1..])
  }

  datatype Fetched = Fetched(read: Read, source: Source)

  /** The read at the top of `process_hop`: on an error, close, reopen and read once
      more; a second error propagates. */
  function Fetch(src: Source): (f: Fetched)
    ensures f.source.url == src.url
  {
    var (first, rest) := Pull(src.feed);
    if first.Got? then Fetched(first, src.(feed := rest))
    else
      var (second, rest2) := Pull(rest);
      Fetched(second, Source(src.url, rest2, src.events + [Close, Open(src.url)]))
  }

  /** A good first read touches nothing else; a failed one costs exactly one close and
      one reopen of the same URL and one more read, whose result is final. */
  lemma ReconnectOnce(src: Source)
    ensures var f := Fetch(src);
            && (src.feed != [] && src.feed[0].Got? ==>
                  f == Fetched(src.feed[0], src.(feed := src.feed[1..])))
            && (src.feed != [] && src.feed[0].ReadError? ==>
                  && f.source.events == src.events + [Close, Open(src.url)]
                  && f.read == Pull(src.feed[1..]).0
                  && f.source.feed == Pull(src.feed[1..]).1)
            && (f.read.ReadError? <==> |src.feed| >= 2 && src.feed[0].ReadError? && src.feed[1].ReadError?)
  {
  }

  /** How `process_hop` ends: returning the data (nothing for a skipped hop), with
      `EndOfStreamError`, or with the read error propagated. */
  datatype HopOutcome = Returned(data: Option<HopData>) | EndOfStream(stream: string) | ReadFailed

  datatype Step = Step(engine: Engine, source: Source, outcome: HopOutcome)

  /** `process_hop`: read (with one reconnect), push the frame onto the window, process
      it, and only then report the end of the stream on a short hop. */
  function Hop(e: Engine, src: Source, s: Settings, names: seq<string>, outcomes: seq<Outcome>): Step
    requires |names| == |outcomes| == |e.runs|
  {
    var f := Fetch(src);
    match f.read
    case ReadError => Step(e, f.source, ReadFailed)
    case Got(samples, sampleCount) =>
      var p := ProcessSamples(e.(window := Push(e.window, samples, s.capacity)), s, names, samples, sampleCount, outcomes);
      Step(p.engine, f.source, if sampleCount < HopSize then EndOfStream(s.name) else Returned(p.data))
  }

  /** The invariant a stream keeps: a window within its capacity and, for every
      matcher, a counter equal to the total of its retained frames' sample counts. */
  predicate EngineValid(e: Engine, s: Settings)
  {
    |e.window| <= s.capacity && forall k :: 0 <= k < |e.runs| ==> Consistent(e.runs[k])
  }

  /** Every hop keeps the invariant, keeps one run per matcher and only ever adds
      problems at the end. */
  lemma HopKeepsValid(e: Engine, src: Source, s: Settings, names: seq<string>, outcomes: seq<Outcome>)
    requires |names| == |outcomes| == |e.runs|
    requires EngineValid(e, s)
    ensures var h := Hop(e, src, s, names, outcomes);
            && EngineValid(h.engine, s)
            && |h.engine.runs| == |e.runs|
            && h.engine.problems[..|e.problems|] == e.problems
  {
    var f := Fetch(src);
    if f.read.Got? {
      var pushed := e.(window := Push(e.window, f.read.samples, s.capacity));
      PushBounded(e.window, f.read.samples, s.capacity);
      if !Skips(e.counters, s) {
        Evaluated(pushed, s, names, f.read.samples, f.read.sampleCount, outcomes);
        forall k | 0 <= k < |e.runs|
          ensures Consistent(Bookkeep(e.runs[k], f.read.samples, f.read.sampleCount, outcomes[k].matched))
        {
          BookkeepKeepsConsistent(e.runs[k], f.read.samples, f.read.sampleCount, outcomes[k].matched);
        }
      }
    }
  }

  /** Every frame read is in the window before anything else happens, in cooldown or
      not; the end of the stream is reported exactly on a short hop, after that hop
      was processed in full; a failed read changes nothing but the source. */
  lemma HopOrder(e: Engine, src: Source, s: Settings, names: seq<string>, outcomes: seq<Outcome>)
    requires |names| == |outcomes| == |e.runs|
    ensures var f := Fetch(src);
            var h := Hop(e, src, s, names, outcomes);
            && h.source == f.source
            && (f.read.ReadError? ==> h.outcome == ReadFailed && h.engine == e)
            && (f.read.Got? ==>
                  var pushed := e.(window := Push(e.window, f.read.samples, s.capacity));
                  var p := ProcessSamples(pushed, s, names, f.read.samples, f.read.sampleCount, outcomes);
                  && h.engine == p.engine
                  && h.engine.window == pushed.window
                  && (h.outcome.EndOfStream? <==> f.read.sampleCount < HopSize)
                  && (h.outcome.Returned? <==> f.read.sampleCount >= HopSize)
                  && (h.outcome.Returned? ==> h.outcome.data == p.data))
  {
  }
}
