# stream-monitor, modelled in Dafny

stream-monitor watches audio streams and emails someone when a stream sounds wrong for too
long. Each stream is read in hops of 2048 samples. Every hop goes into a bounded window of
recent audio, and every hop is scored by a set of matchers. A matcher reports whether the hop
looks like a problem, for example because the sound pressure level barely changes. Once the
stream has matched for longer than its timeout, the stream hands the window to a problem
callback and enters a cooldown. The callback is the notifier: it sends an optional SMS
(through an email gateway) and an email with the audio clip attached, over SMTP. Both fall
back from implicit TLS to STARTTLS when the server needs it. Everything is driven by a
configuration file with one section per stream. Sections are validated key by key, and the
errors carry exact, humanised messages.

The model covers these parts:

- `wrappers.dfy`, `strings.dfy`: `Option`/`Result`, Python's `str.join`, Python's ordering of
  strings, and the ascending enumeration `sorted()` gives of a set of strings.
- `config_errors.dfy` (`ConfigErrors`): the configuration errors and their texts, including
  `_humanize_iterable`.
- `stream_config.dfy` (`StreamConfigs`): key validation of one section, and the accessors
  with their defaults.
- `config.dfy` (`Configs`): the per-section loading loop, `stream_names` and `stream_config`.
- `matcher.dfy` (`Matchers`): the `Matcher` class, with its run-length bookkeeping proved
  against a pure specification.
- `spl_rate.dfy` (`SplRate`): the sound-pressure-level rate-of-change matcher, as a class
  that holds a `Matcher` and the previous level.
- `engine.dfy` (`StreamSpec`): the pure specification of one hop. It covers the bounded
  window, the cooldown, the shared match counter and the trigger, and reconnect-once on a
  read error.
- `stream.dfy` (`Streams`): the `Stream` class, whose methods are proved against
  `StreamSpec`.
- `engine_scenarios.dfy` (`StreamScenarios`): the `while True: process_hop()` loop run to the
  end of a stream, and closed forms for one always-matching matcher.
- `notifier.dfy` (`Notifications`): the notification texts, the MIME check, the SMTP call
  sequence, and the callback.

Modelling choices:

- Durations, thresholds and levels are `real`. Exact rationals stand in for Python floats.
  Sample counters are `nat`, and a samplerate is a positive `nat`.
- A NaN score is the constructor `Undefined`.
- Some collaborators become inputs: `json.loads`, `getint`/`getfloat` parsing, `str()` of
  a float, `mimetypes.guess_type` and the outcome of each connection's TLS handshake. They are function
  values or plain values passed in.
- A matcher's variant scoring (`_process_samples`) is an input to `Matcher.ProcessSamples`.
  So is each hop's `(value, match)` outcome to `Stream.ProcessHop`.
- The audio source is a scripted feed of reads, each either `Got(samples, sampleCount)` or a
  `ReadError`. Closing and reopening it is recorded in an event log. A reopened source
  continues the same feed.
- Calling the problem callback appends `Problem(stream, matcher, clip)` to the stream's
  `problems` and returns: an exception from it is not modelled (see "Left out"). As in
  the code, the clip is the whole shared window, not the matcher's own frames.
- As in the code, the trigger tests the stream's own match counter, which every matcher in
  the loop shares. A miss by any matcher resets it, and the test is `count / samplerate >
  timeout` (`StreamSpec.TriggerInSamples` proves that this is the same as comparing sample
  counts).
- In cooldown, the skip test uses the counter value from before the increment, as the code
  does.
- SMTP is modelled as the list of calls the notifier makes: open with TLS, open plain,
  EHLO, STARTTLS, login, send, quit. A notification is that list plus the error that ended
  it, if any.

## Model

| member | source | states |
|---|---|---|
| Strings.SortedElements | src/stream_monitor/_config/_errors.py:99 | `sorted()` of a set of names: exactly the set's elements, once each, in strictly ascending Python string order |
| Strings.AscendingIsSorted | src/stream_monitor/_config/_errors.py:99 | any strictly ascending sequence holding exactly a set's elements is that set's sorted enumeration (sorting is unique) |
| Strings.BelowTotal | src/stream_monitor/_config/_errors.py:99 | Python's string order compares any two strings |
| Strings.BelowTransitive | src/stream_monitor/_config/_errors.py:99 | Python's string order is transitive |
| Strings.BelowAntisymmetric | src/stream_monitor/_config/_errors.py:99 | two strings each at most the other are equal |
| Strings.JoinSnoc | src/stream_monitor/_config/_errors.py:103 | joining one more item appends the separator and the item |
| ConfigErrors.QuoteAll | src/stream_monitor/_config/_errors.py:99 | every item is wrapped in single quotes, in the same order |
| ConfigErrors.Humanize | src/stream_monitor/_config/_errors.py:95-97 | the humanised list is empty exactly when there are no items |
| ConfigErrors.HumanizeOne | src/stream_monitor/_config/_errors.py:99-101 | one item gives just that item in single quotes |
| ConfigErrors.HumanizeTwo | src/stream_monitor/_config/_errors.py:103-108 | two items give the smaller quoted, the conjunction, the larger quoted, with no comma |
| ConfigErrors.HumanizeSerialComma | src/stream_monitor/_config/_errors.py:103-108 | three or more items give the sorted quoted items joined by ", ", with the conjunction before the last (the serial comma) |
| ConfigErrors.ListPhraseSerialComma | src/stream_monitor/_config/_errors.py:103-108 | joining all but the last item, adding "," and then " and last" is the serial-comma list |
| ConfigErrors.ReprPlain | src/stream_monitor/_config/_errors.py:27 | `repr` of a name made of printable ASCII characters other than quotes and backslash is the name in single quotes |
| ConfigErrors.InvalidStreamConfigText | src/stream_monitor/_config/_errors.py:12-28 | for a name made of printable ASCII characters other than quotes and backslash, the text is "Error processing config file '<path>': improper configuration detected for stream '<name>': <detail>" |
| ConfigErrors.KeyListText | src/stream_monitor/_config/_errors.py:36-57 | the missing-keys and unexpected-keys texts are "the following <phrase> missing/unexpected: <humanised keys>" |
| ConfigErrors.OneKeyText | src/stream_monitor/_config/_errors.py:36-57 | one key: "the following key is missing: 'k'" and "the following key is unexpected: 'k'" |
| ConfigErrors.TwoKeysText | src/stream_monitor/_config/_errors.py:36-57 | two keys: "the following keys are …: 'a' and 'b'" with the keys in order |
| ConfigErrors.ManyKeysText | src/stream_monitor/_config/_errors.py:36-57 | three or more keys: "the following keys are …: " and the serial-comma list of the sorted quoted keys |
| ConfigErrors.PluralText | src/stream_monitor/_config/_errors.py:40-45 | more than one key: the plural lead text followed by the humanised list |
| ConfigErrors.SmtpKeysOrder | tests/unit/config/test_config.py:158-177 | the six keys missing when only `url` is given sort as from_email, smtp_login, smtp_password, smtp_server, smtp_server_port, to_emails |
| ConfigErrors.NoSuchStreamText | src/stream_monitor/_config/_errors.py:89-92 | for a name made of printable ASCII characters other than quotes and backslash, the text is "Stream with name '<name>' does not exist" |
| StreamConfigs.LoadStreamConfig | src/stream_monitor/_config/_stream_config.py:38-55 | a section loads iff it has every required key, no key outside required ∪ optional, and JSON `to_emails`. Missing keys are reported first, then unexpected keys; a section whose keys are right but whose `to_emails` is not JSON gets exactly the `to_emails` format error carrying that text. A loaded section is kept unchanged |
| StreamConfigs.MissingReportedFirst | src/stream_monitor/_config/_stream_config.py:39-46 | a section that both lacks keys and has extra keys reports the missing ones |
| StreamConfigs.OnlyUrlMissing | src/stream_monitor/_config/_stream_config.py:39-42 | a section holding only `url` reports the six other required keys as missing |
| StreamConfigs.SmsRecipientsKeyRejected | src/stream_monitor/_config/_stream_config.py:26-46 | a section that sets `to_sms_emails` is refused with an unexpected-keys error naming it |
| StreamConfigs.GetFloat | src/stream_monitor/_config/_stream_config.py:83-95 | `getfloat` with a fallback: the fallback when the key is absent, the parsed number when present, and a `ValueError` naming key and text when the text is not a number |
| StreamConfigs.StreamConfig.SmtpServerPort | src/stream_monitor/_config/_stream_config.py:68-69 | `getint` of the port succeeds exactly when the text is an integer, and gives that integer |
| StreamConfigs.LoadedTexts | src/stream_monitor/_config/_stream_config.py:62-81 | the text accessors of a loaded section return the section's texts, and `to_emails` its JSON decoding |
| StreamConfigs.DefaultsWhenAbsent | src/stream_monitor/_config/_stream_config.py:21-24 | without optional keys: threshold 0.7, preceding duration 30.0, timeout 60.0, cooldown 3600.0 |
| StreamConfigs.ConfiguredValues | src/stream_monitor/_config/_stream_config.py:83-95 | a configured, parseable optional number is what its accessor returns |
| Configs.LoadConfig | src/stream_monitor/_config/_config.py:9-30 | the section loop returns exactly what the recursive specification `LoadSections` gives |
| Configs.LoadSucceedsIffAllValid | src/stream_monitor/_config/_config.py:19-28 | loading succeeds iff every section loads |
| Configs.FirstBadSectionReported | src/stream_monitor/_config/_config.py:20-28 | the first bad section stops loading, with `InvalidStreamConfig(path, its name, its error's text)` |
| Configs.FailureSticks | src/stream_monitor/_config/_config.py:20-28 | once a prefix of the sections fails, later sections do not change the outcome |
| Configs.LoadLast | src/stream_monitor/_config/_config.py:20-24 | loading one more section succeeds iff the prefix and that section load, and it stores that section under its name |
| Configs.LoadedStreams | src/stream_monitor/_config/_config.py:19-30 | the loaded names are exactly the section names, and each holds one of the sections of that name |
| Configs.LoadedValid | src/stream_monitor/_config/_config.py:19-30 | every loaded stream configuration passed the key checks |
| Configs.NewConfig | src/stream_monitor/_config/_config.py:33-38 | a path that is not a file fails with `NoSuchConfigurationFile` before parsing. A parser error becomes `ConfigFileParsing(path, text)`. Otherwise the result is the sections' loading, and what loads is valid |
| Configs.LookupAfterLoad | src/stream_monitor/_config/_config.py:40-47 | `stream_names` is the set of section names. `stream_config` returns the section's configuration for a loaded name and `NoSuchStream(name)` otherwise |
| Matchers.Matcher.constructor | src/stream_monitor/_matchers/_matcher.py:10-16 | a new matcher has count 0 and no retained frames |
| Matchers.Matcher.Reset | src/stream_monitor/_matchers/_matcher.py:14-16 | afterwards the count is 0 and the frame list is empty |
| Matchers.Matcher.ProcessSamples | src/stream_monitor/_matchers/_matcher.py:24-34 | returns the scoring's `(value, match)` unchanged. On a match the count grows by the sample count and a copy of the frame is appended. On a miss both are reset |
| Matchers.BookkeepKeepsConsistent | src/stream_monitor/_matchers/_matcher.py:14-16 | the count always equals the sum of the sample counts of the retained frames |
| Matchers.ConsecutiveMatches | src/stream_monitor/_matchers/_matcher.py:28-30 | after N matches of S samples from a fresh state, the count is N×S and the frames are the N inputs in arrival order |
| Matchers.MatchesAccumulate | src/stream_monitor/_matchers/_matcher.py:28-30 | after consecutive matches, the retained frames are the inputs and the count is the sum of their sample counts |
| Matchers.RunSinceLastMiss | src/stream_monitor/_matchers/_matcher.py:28-32 | the state after any history depends only on the hops after the last miss |
| Matchers.SumRepeat | src/stream_monitor/_matchers/_matcher.py:29 | N equal sample counts S add up to N×S |
| Matchers.MatchingHops | src/stream_monitor/_matchers/_matcher.py:24-30 | a run of matching hops over given frames, one hop per frame |
| SplRate.RateStep | src/stream_monitor/_matchers/_sound_pressure_level_rate.py:18-30 | the first call stores the level and gives `(NaN, no match)`. A later call gives `level - previous`, matching iff its absolute value is below the threshold. The stored level is always the current one |
| SplRate.RateTrace | src/stream_monitor/_matchers/_sound_pressure_level_rate.py:18-30 | one outcome per level in a sequence of calls |
| SplRate.RateTraceAt | src/stream_monitor/_matchers/_sound_pressure_level_rate.py:23-30 | the i-th outcome of a sequence of calls compares level i with level i−1 (or with the starting baseline) |
| SplRate.FirstHopNeverMatches | src/stream_monitor/_matchers/_sound_pressure_level_rate.py:23-25 | the first call never matches and its score is undefined |
| SplRate.SteadyLevelMatches | tests/unit/matchers/test_sound_pressure_level_rate.py:31 | two equal consecutive levels with a positive threshold give `(0.0, match)` |
| SplRate.LargeSwingMisses | tests/unit/matchers/test_sound_pressure_level_rate.py:38-41 | a change at or beyond the threshold does not match |
| SplRate.FourHops | tests/unit/matchers/test_sound_pressure_level_rate.py:27-41 | the levels 0, 0, 6.5, 20 with threshold 10 give undefined/no, 0/yes, 6.5/yes, 13.5/no |
| SplRate.SoundPressureLevelRateOfChangeMatcher.constructor | src/stream_monitor/_matchers/_sound_pressure_level_rate.py:12-16 | the name is "SPL rate of change", the threshold is the configured one, and there is no baseline and no run |
| SplRate.SoundPressureLevelRateOfChangeMatcher.Reset | src/stream_monitor/_matchers/_sound_pressure_level_rate.py:16 | a reset clears the run and keeps the baseline |
| SplRate.SoundPressureLevelRateOfChangeMatcher.ProcessSamples | src/stream_monitor/_matchers/_sound_pressure_level_rate.py:18-30 | outcome and new baseline are `RateStep` of the old baseline and the level. The run bookkeeping is `Bookkeep` of that outcome |
| StreamSpec.Ceil | src/stream_monitor/_stream.py:44 | `math.ceil`: the least integer at or above x |
| StreamSpec.WindowCapacity | src/stream_monitor/_stream.py:40-45 | the window holds `ceil((preceding + timeout) × samplerate / 2048)` hops: enough for the duration, and one hop fewer would not be. Defined whenever that ceiling is not negative |
| StreamSpec.NegativeSumEmptyWindow | src/stream_monitor/_stream.py:40-45 | a duration sum below zero by less than one hop's worth of samples gives a window of capacity 0, as `math.ceil` does |
| StreamSpec.WindowHoldsNewest | src/stream_monitor/_stream.py:43-45 | appending frames one by one to the bounded window leaves the newest `capacity` frames, in order |
| StreamSpec.PushBounded | src/stream_monitor/_stream.py:62 | an append grows a window that is not full, and on a full one drops the oldest frame; the new frame is last |
| StreamSpec.PushLastN | src/stream_monitor/_stream.py:62 | appending to the newest-N window gives the newest N of the longer history |
| StreamSpec.TriggerInSamples | src/stream_monitor/_stream.py:88-89 | `count / samplerate > timeout` iff `count > timeout × samplerate` |
| StreamSpec.ScanProblems | src/stream_monitor/_stream.py:82-105 | the matcher loop calls back at most once per matcher. Each call names the stream and a matcher and carries the whole window. The loop ends in cooldown iff it called back |
| StreamSpec.ScanWithoutMatch | src/stream_monitor/_stream.py:104-105 | if no matcher matches, nothing is called back and the shared counter is 0 |
| StreamSpec.ScanData | src/stream_monitor/_stream.py:81-84 | the returned data has one entry per matcher name, holding the last value scored under that name |
| StreamSpec.OneMatcher | src/stream_monitor/_stream.py:86-105 | one matcher: a miss zeroes the counter. A match adds the sample count, and past the timeout it calls back once and zeroes the counter |
| StreamSpec.CooldownSuppresses | src/stream_monitor/_stream.py:73-77 | in cooldown below the required count, the cooldown counter grows by the sample count and nothing else changes: no matcher runs, no callback, no data |
| StreamSpec.Evaluated | src/stream_monitor/_stream.py:79-107 | otherwise the cooldown counter is 0, cooldown is on iff a callback happened, earlier callbacks are kept, the data is the duration and the scores, and every matcher is bookkept |
| StreamSpec.ProcessedWhenEvaluated | src/stream_monitor/_stream.py:79-107 | when matchers are evaluated, the hop's result is the matcher loop's result started from a zero cooldown counter |
| StreamSpec.BookkeepAll | src/stream_monitor/_stream.py:82-83 | one run per matcher after each is bookkept |
| StreamSpec.Fetch | src/stream_monitor/_stream.py:54-60 | a fetch never changes the source's URL |
| StreamSpec.ReconnectOnce | src/stream_monitor/_stream.py:54-60 | a good read is taken as it is. A failed read closes and reopens the source and reads once more. The fetch fails iff two reads in a row fail |
| StreamSpec.HopOrder | src/stream_monitor/_stream.py:53-69 | a failed fetch leaves the engine as it was and ends the hop with the read error. Otherwise the frame is pushed before the samples are processed, and a short hop ends the stream after its processing (callbacks included). A full hop returns the data |
| StreamSpec.HopKeepsValid | src/stream_monitor/_stream.py:53-107 | a hop keeps the window within capacity and every matcher's run consistent, and keeps earlier callbacks |
| Streams.Stream.constructor | src/stream_monitor/_stream.py:16-45 | settings from the arguments, required cooldown `cooldown × samplerate`, capacity as `WindowCapacity`, empty window, counters 0, not in cooldown, source opened |
| Streams.Stream.Close | src/stream_monitor/_stream.py:47-48 | logs a close of the source and changes nothing else |
| Streams.Stream.Open | src/stream_monitor/_stream.py:50-51 | logs an open of the stream's URL and changes nothing else |
| Streams.Stream.PullSource | src/stream_monitor/_stream.py:55 | takes the next read from the feed |
| Streams.Stream.FetchHop | src/stream_monitor/_stream.py:54-60 | the read and the new source are `Fetch` of the old source |
| Streams.Stream.ProcessHop | src/stream_monitor/_stream.py:53-69 | the new state and the outcome are `StreamSpec.Hop` of the old state and the matchers' outcomes; the invariant is kept |
| Streams.Stream.ProcessSamples | src/stream_monitor/_stream.py:71-107 | the new state and the data are `StreamSpec.ProcessSamples` of the old state |
| Streams.Stream.EvaluateMatchers | src/stream_monitor/_stream.py:81-105 | the loop over the matchers leaves counter, cooldown flag, callbacks and data as `ScanMatchers` says, and bookkeeps every matcher |
| Streams.Stream.Tally | src/stream_monitor/_stream.py:86-105 | one matcher's outcome updates the shared counter, the cooldown flag and the callbacks as `ScanStep` says, for a callback that returns |
| Streams.Stream.ValidEngine | src/stream_monitor/_stream.py:40-45 | a valid stream's state meets the hop invariant |
| Streams.BookkeptValid | src/stream_monitor/_matchers/_matcher.py:28-32 | bookkeeping every matcher keeps every run consistent |
| StreamScenarios.RunToEnd | tests/unit/test_stream.py:43-45 | with a problem callback that returns, calling `process_hop` until it raises always ends, in end of stream or a failed read |
| StreamScenarios.HopShape | src/stream_monitor/_stream.py:53-69 | a hop keeps one run per matcher, and a hop that returns normally uses up at least one read of the feed |
| StreamScenarios.RunProblemsNamed | src/stream_monitor/_stream.py:99 | every callback of a run names the stream and one of its matchers, and earlier ones are kept |
| StreamScenarios.HopProblemsNamed | src/stream_monitor/_stream.py:99 | the same for one hop |
| StreamScenarios.NeverMatchingNeverCalls | tests/unit/test_stream.py:23-48 | matchers that never match never cause a callback |
| StreamScenarios.HopTicks | src/stream_monitor/_stream.py:62-105 | with one always-matching matcher, a hop moves the counters by `Tick` and calls back iff `Fires` |
| StreamScenarios.Counts | src/stream_monitor/_stream.py:55 | the sample counts of a feed of good reads |
| StreamScenarios.RunTicks | src/stream_monitor/_stream.py:53-105 | with one always-matching matcher, a whole run ends the stream and has `TickAll` of the feed's sample counts as its counters and number of callbacks |
| StreamScenarios.TickAllAppend | src/stream_monitor/_stream.py:71-105 | running two stretches of hops in turn is running their concatenation |
| StreamScenarios.Accumulate | src/stream_monitor/_stream.py:86-89 | full hops below the timeout add 2048 each to the counter with no callback |
| StreamScenarios.Cooldown | src/stream_monitor/_stream.py:73-77 | full hops in cooldown below the requirement add 2048 each to the cooldown counter with no callback |
| StreamScenarios.FirstFire | src/stream_monitor/_stream.py:86-103 | the first hop past the timeout calls back once and zeroes the counter |
| StreamScenarios.Rearmed | src/stream_monitor/_stream.py:73-80 | once the cooldown requirement is met, the next hop behaves as from a fresh state |
| StreamScenarios.Period | src/stream_monitor/_stream.py:73-103 | a cooldown followed by a fresh timeout calls back exactly once and ends back in cooldown |
| StreamScenarios.SingleCallback | tests/unit/test_stream.py:51-76 | if the cooldown outlasts the rest of the feed, exactly one callback happens |
| StreamScenarios.TwoCallbacks | tests/unit/test_stream.py:79-110 | a feed long enough for a timeout, a cooldown and another timeout gives at least two callbacks |
| StreamScenarios.WholeSecondsToFire | src/stream_monitor/_stream.py:88-89 | with a whole-second timeout t, the callback comes on full hop `t × samplerate / 2048 + 1` (integer division): that hop takes the counter past the timeout, the one before does not |
| StreamScenarios.WholeSecondsToRearm | src/stream_monitor/_stream.py:73-77 | with a whole-second cooldown c, the cooldown lasts `ceil(c × samplerate / 2048)` hops |
| StreamScenarios.OneSecondTimeoutCallsOnce | tests/unit/test_stream.py:51-76 | timeout 1 s and the default cooldown, always matching, a feed longer than one second and shorter than the cooldown: the stream ends with exactly one callback naming the stream and the matcher |
| StreamScenarios.FiveSecondCooldownCallsTwice | tests/unit/test_stream.py:79-110 | timeout 5 s and cooldown 5 s, always matching, a long enough feed: at least two callbacks, all naming the stream and the matcher |
| Notifications.Split | src/stream_monitor/_notifier.py:117 | `str.split` on one character: at least one part, and no part holds the separator |
| Notifications.SplitJoin | src/stream_monitor/_notifier.py:117 | joining the parts with the separator gives back the text |
| Notifications.SplitTwo | src/stream_monitor/_notifier.py:117 | text with the separator once, between two separator-free parts, splits into those two parts |
| Notifications.BaseName | src/stream_monitor/_notifier.py:123 | the attachment's file name is the path's last component: a suffix of the path with no '/', preceded by '/' unless it is the whole path |
| Notifications.BaseNameInDirectory | src/stream_monitor/_notifier.py:123 | a file name placed in a directory, `directory/file`, has `file` as its name |
| Notifications.AttachmentOf | src/stream_monitor/_notifier.py:113-124 | the MIME check passes iff a type was guessed and it splits at '/' into exactly two non-empty parts. The attachment then carries those parts and the file's name. No guess, or an empty part, is `EmailAttachmentMimeTypeError`; any other shape is the unpacking `ValueError` |
| Notifications.MimeTypeAccepted | src/stream_monitor/_notifier.py:117-124 | `main/sub` with non-empty, slash-free halves is accepted and split into those halves |
| Notifications.SendEmail | src/stream_monitor/_notifier.py:96-142 | building the message and making the server calls step by step gives `Send`: the MIME check before any connection, then connect (with the fall-back), login, send, quit |
| Notifications.OneTransaction | src/stream_monitor/_notifier.py:140-142 | a session that connects ends with login, send, quit in that order, and makes none of these calls before them. A session that fails makes none |
| Notifications.FallbackOnlyOnWrongVersion | src/stream_monitor/_notifier.py:126-138 | implicit TLS is tried first. Plain SMTP with STARTTLS is used iff the SSL error's reason is `WRONG_VERSION_NUMBER`. Any other SSL error ends the attempt after that try |
| Notifications.UnknownMimeTypeSendsNothing | src/stream_monitor/_notifier.py:113-116 | an attachment of unknown type fails before any server call |
| Notifications.SentMessage | src/stream_monitor/_notifier.py:107-124 | the message sent has the given subject and content and is from the sender. Its To is the recipients joined by ", ". It has an attachment iff a file was given, named after the file |
| Notifications.OnlyMessageSent | src/stream_monitor/_notifier.py:141 | the only message a session sends is the one it was given |
| Notifications.SendOutcome | src/stream_monitor/_notifier.py:113-142 | a message with an attachment goes out iff the MIME check passes and the handshake is one the notifier gets through. It is then the connection and one transaction |
| Notifications.EmailBodyLayout | src/stream_monitor/_notifier.py:36-56 | the email text opens with the stream name and timeout, and ends with the cooldown and sign-off. The preceding-audio note comes right after the opening iff the preceding duration is positive |
| Notifications.ServerOf | src/stream_monitor/_notifier.py:59-63 | the server settings are the stream's, and they exist iff its port reads as an integer |
| Notifications.SendNotificationSms | src/stream_monitor/_notifier.py:71-93 | the SMS step equals `NotifySms`: nothing without SMS recipients, otherwise one message with no subject and no attachment |
| Notifications.SendNotificationEmail | src/stream_monitor/_notifier.py:31-68 | the email step equals `NotifyEmail`: timeout, preceding duration and cooldown read in that order, then the subject, the text, the recipients and the clip |
| Notifications.ProblemDetected | src/stream_monitor/_notifier.py:18-28 | the callback equals `Notify`: the stream looked up, the timeout read for the log line, the SMS and then the email, each over its own connection with its own handshake outcome |
| Notifications.UnknownStreamNotifiesNobody | src/stream_monitor/_notifier.py:21 | an unknown stream fails with `NoSuchStream(name)` and sends nothing |
| Notifications.NoSmsWithoutRecipients | src/stream_monitor/_notifier.py:71-75 | without SMS recipients the notification is the email step alone |
| Notifications.SmsOutcome | src/stream_monitor/_notifier.py:71-93 | the SMS goes out iff the timeout and port read and the handshake succeeds. It is then one transaction to the SMS recipients, with no subject and no attachment |
| Notifications.EmailOutcome | src/stream_monitor/_notifier.py:31-68 | the email goes out iff the numbers and port read, the clip's type passes and the handshake succeeds. It is then one transaction from the sender to the recipients, with the subject and the clip |
| Notifications.SmsBeforeEmail | src/stream_monitor/_notifier.py:27-28 | when everything succeeds, whatever the two handshakes were, the SMS is sent before the email, each with its own recipients, subject and attachment |
| Notifications.SmsSentEmailRefused | src/stream_monitor/_notifier.py:126-132 | the two connections are independent: an SMS sent over implicit TLS followed by an email handshake failing for a reason other than `WRONG_VERSION_NUMBER` ends with that SSL error, after the SMS's calls and the email's one connection try |
| Notifications.NotifyAsWritten | src/stream_monitor/_notifier.py:18-28 | as written, the callback never makes a server call and always ends in an error |
| Notifications.AsWrittenNeverNotifies | src/stream_monitor/_notifier.py:71-89 | as written, a loaded stream whose timeout reads still ends in `AttributeError` for `to_sms_emails`. With SMS recipients as an input, the same stream gets its email |
| Notifications.ExampleMessage | tests/unit/test_notifier.py:9-63 | for the tests' stream, the email is one transaction after the connection. Its subject is "Stream Monitor: problem detected on stream", it is from from@example.com to to@example.com, and it carries an audio/mpeg attachment |
| Notifications.StreamSubject | tests/unit/test_notifier.py:40-42 | the subject for stream "stream" is "Stream Monitor: problem detected on stream" |
| Notifications.ExampleEmail | tests/unit/test_notifier.py:9-63 | with implicit TLS: exactly four calls. They are the connection to smtp.example.com:25, login("login", "password"), the message, and quit |
| Notifications.ExampleEmailStartTls | tests/unit/test_notifier.py:66-131 | with `WRONG_VERSION_NUMBER`: the TLS try, then the plain connection, EHLO, STARTTLS, EHLO, login, send and quit |

## Findings

| source | as written | input that shows it | evidently intended | confidence | as-written member | corrected member |
|---|---|---|---|---|---|---|
| src/stream_monitor/_notifier.py:74, 89 | `_send_notification_sms` calls `stream_config.to_sms_emails()`. `StreamConfig` has no such method, and `_stream_config.py:26-35` does not allow the `to_sms_emails` key | any loaded stream whose timeout reads: the callback raises `AttributeError` after the log line, so neither the SMS nor the email is sent | SMS recipients taken from the stream's configuration, SMS sent first when there are any, then the email (tests/unit/test_notifier.py:134-185 configure `to_sms_emails`) | high; not executed | Notifications.AsWrittenNeverNotifies | Notifications.SmsBeforeEmail |

The rest of the model uses the corrected behaviour. `Notifications.Notify` takes the SMS
recipients as an explicit input, so it does not depend on the missing accessor. The key
check is modelled as written: `StreamConfigs.SmsRecipientsKeyRejected` shows that a section
setting `to_sms_emails` does not load.

## Left out

- `src/stream_monitor/monitor.py` is not part of this model. It covers the processes per
  stream, signal handling, queue polling, argument parsing and logging setup.
- aubio and numpy are not modelled. Decoding audio, `db_spl`, pitch and the phase vocoder
  become inputs. The samples of a frame are an uninterpreted `seq<real>`. The pitch-confidence
  and vocoder matchers are thin wrappers over them and are not part of this model.
- Plotting (`_plotting`) is not part of this model.
- Floating point: durations, levels and thresholds are exact reals, and NaN is `Undefined`.
  Rounding in `count / samplerate` and in `cooldown × samplerate` is not modelled.
- configparser file parsing is not modelled. A file's parse is given as `ParseOutcome`:
  either a parser error or the ordered sections. Each section is configparser's merged
  view: its keys include the `[DEFAULT]` options, and `DEFAULT` is not listed as a section.
- JSON decoding is not modelled. `to_emails` uses the given `isJson`/`jsonStrings`. A JSON
  value that is not a list of strings is not distinguished.
- `getint`/`getfloat` number parsing, and `str()` of a float in the messages, are given
  functions.
- Case-folding of option names by configparser is not modelled: keys are compared as given.
- The datetime/tempfile path of the clip and the WAV write are not modelled. The callback
  receives the clip as the window's frames.
- `StreamSpec.ScanStep`: the WAV write and the problem callback are taken to return.
  In the code an exception from either leaves `process_hop` (`_stream.py:95-101`) before
  cooldown is entered and the counter is zeroed, and before the later matchers run, and
  no data is returned; the stream's process then exits. The model has no such outcome.
  As written, the notifier's callback raises on every call (see "Findings"), so this path
  is the one the code as written takes on every trigger.
- `Streams.Stream.Tally`: the same assumption, for the method that applies `ScanStep`.
- `StreamScenarios.RunToEnd`: ends in end of stream or a failed read only because the
  callback is taken to return; a raising callback is a third way the loop ends that is
  not modelled.
- configparser's interpolation is not modelled: values are taken as they read after it. The default `BasicInterpolation` of `configparser.ConfigParser()`
  (`_config.py:12`) applies on every `section[key]`, `getint` and `getfloat`: `%%` and
  `%(key)s` change the value, and a lone `%` raises `InterpolationSyntaxError` on access
  (for `to_emails` during loading, uncaught by the JSON check). Neither the rewriting nor
  that error is modelled.
- `Notifications.BaseName`: the text after the last '/'. `pathlib` also drops trailing
  separators and `.` components (`Path("a/").name` is `a`); the clip's path is
  `<tempdir>/<stream>_<timestamp>.wav`, which never ends in either, so this is not
  modelled.
- The attachment's file read and the `EmailMessage` encoding are not modelled. The message is
  its headers, text and attachment name and type. A `None` subject is kept as `None`.
- SMTP failures other than the TLS handshake are not modelled: refused connections, login or
  send errors. Neither is the `ssl.SSLContext` argument of STARTTLS.
- The log lines of the notifier are not modelled. The log line's timeout is still read, so
  its error comes first.
- `Streams.Stream.constructor`: requires `(preceding_duration + timeout) × samplerate > -2048`,
  which is exactly when the window's `maxlen` is not negative. Below that, Python's
  `deque(maxlen=...)` raises `ValueError`, and that error path is not modelled.
- `ConfigErrors.Repr`: escapes backslash, the chosen quote and ASCII control characters only.
  Python's `repr` also escapes non-ASCII characters that are not printable (U+00A0, U+2028
  and others) as `\x`, `\u` or `\U`, which needs the Unicode character database. So the
  error texts of stream names holding such characters are not modelled. The lemmas about
  the texts are stated for printable ASCII names only.
- `Streams.Stream.constructor`: requires distinct matcher objects. The code does not require
  this, but a matcher listed twice would be bookkept twice per hop through one object.
- The source's samplerate and hop size are fixed per stream. A reopened source is assumed to
  keep them and to continue the same feed of reads.
- `StreamSpec.Fetch`: a `RuntimeError` on the retry propagates as the outcome `ReadFailed`.
  The model does not distinguish other exception types.
