/** The configuration file: every section loaded as one stream's configuration,
    the first bad section reported with the file's path and the section's name, and
    the lookups by stream name. */
module Configs {
  import opened Wrappers
  import opened ConfigErrors
  import opened StreamConfigs

  /** What the INI parser makes of an existing file: its sections in file order, or
      the parser's error text. Each section is the parser's merged view, holding the
      `[DEFAULT]` options as well as its own, and `DEFAULT` itself is not a section. */
  datatype ParseOutcome = Parsed(sections: seq<(string, Section)>) | ParseError(parserMessage: string)

  /** The loading loop as a function of the sections read so far: the configurations
      of a prefix that loads, or the error of its first bad section, named and wrapped. */
  function LoadSections(path: string, sections: seq<(string, Section)>, conv: Conversions)
    : Result<map<string, StreamConfig>, ConfigError>
    decreases |sections|
  {
    if sections == [] then Success(map[])
    else
      var configs :- LoadSections(path, sections[..|sections| - 1], conv);
      var (name, section) := sections[|sections| - 1];
      match LoadStreamConfig(section, conv)
      case Failure(e) => Failure(InvalidStreamConfig(path, name, Message(e)))
      case Success(c) => Success(configs[name := c])
  }

  /** `_load_config`: each section in turn, stopping at the first one that fails. */
  method LoadConfig(path: string, sections: seq<(string, Section)>, conv: Conversions)
    returns (r: Result<map<string, StreamConfig>, ConfigError>)
    ensures r == LoadSections(path, sections, conv)
  {
    var configs: map<string, StreamConfig> := map[];
    var i := 0;
    while i < |sections|
      invariant 0 <= i <= |sections|
      invariant LoadSections(path, sections[..i], conv) == Success(configs)
    {
      var (name, section) := sections[i];
      var loaded := LoadStreamConfig(section, conv);
      assert sections[..i + 1][..i] == sections[..i];
      if loaded.Failure? {
        FailureSticks(path, sections, conv, i + 1);
        return Failure(InvalidStreamConfig(path, name, Message(loaded.error)));
      }
      configs := configs[name := loaded.value];
      i := i + 1;
    }
    assert sections[..i] == sections;
    return Success(configs);
  }

  /** Once a prefix has failed, the sections after it change nothing. */
  lemma {:induction false} FailureSticks(path: string, sections: seq<(string, Section)>, conv: Conversions, k: nat)
    requires 0 < k <= |sections|
    requires LoadSections(path, sections[..k], conv).Failure?
    ensures LoadSections(path, sections, conv) == LoadSections(path, sections[..k], conv)
    decreases |sections|
  {
    if k < |sections| {
      var init := sections[..|sections| - 1];
      assert init[..k] == sections[..k];
      FailureSticks(path, init, conv, k);
    } else {
      assert sections[..k] == sections;
    }
  }

  /** Every section is a valid stream configuration. */
  predicate AllValid(sections: seq<(string, Section)>, conv: Conversions)
  {
    forall i :: 0 <= i < |sections| ==> LoadStreamConfig(sections[i].1, conv).Success?
  }

  /** Loading succeeds exactly when every section is a valid stream configuration. */
  lemma {:induction false} LoadSucceedsIffAllValid(path: string, sections: seq<(string, Section)>, conv: Conversions)
    ensures LoadSections(path, sections, conv).Success? <==> AllValid(sections, conv)
    decreases |sections|
  {
    if sections != [] {
      var n := |sections| - 1;
      LoadSucceedsIffAllValid(path, sections[..n], conv);
      LoadLast(path, sections, conv);
      AllValidSnoc(sections, conv);
    }
  }

  /** One more section: the load of the prefix, then that section's own check. */
  lemma LoadLast(path: string, sections: seq<(string, Section)>, conv: Conversions)
    requires sections != []
    ensures var n := |sections| - 1;
            && (LoadSections(path, sections, conv).Success? <==>
                  LoadSections(path, sections[..n], conv).Success? && LoadStreamConfig(sections[n].1, conv).Success?)
            && (LoadSections(path, sections, conv).Success? ==>
                  LoadSections(path, sections, conv).value
                    == LoadSections(path, sections[..n], conv).value[sections[n].0 := LoadStreamConfig(sections[n].1, conv).value])
  {
  }

  lemma AllValidSnoc(sections: seq<(string, Section)>, conv: Conversions)
    requires sections != []
    ensures var n := |sections| - 1;
            AllValid(sections, conv) <==> AllValid(sections[..n], conv) && LoadStreamConfig(sections[n].1, conv).Success?
  {
    var n := |sections| - 1;
    assert forall i :: 0 <= i < n ==> sections[..n][i] == sections[i];
  }

  /** The error reported is that of the first bad section, with its name. */
  lemma {:induction false} FirstBadSectionReported(path: string, sections: seq<(string, Section)>, conv: Conversions, i: nat)
    requires i < |sections|
    requires AllValid(sections[..i], conv)
    requires LoadStreamConfig(sections[i].1, conv).Failure?
    ensures LoadSections(path, sections, conv)
              == Failure(InvalidStreamConfig(path, sections[i].0, Message(LoadStreamConfig(sections[i].1, conv).error)))
  {
    var prefix := sections[..i];
    LoadSucceedsIffAllValid(path, prefix, conv);
    assert sections[..i + 1][..i] == prefix;
    assert sections[..i + 1][i] == sections[i];
    FailureSticks(path, sections, conv, i + 1);
  }

  /** A successful load holds exactly the section names, each with a section of that name. */
  lemma {:induction false} LoadedStreams(path: string, sections: seq<(string, Section)>, conv: Conversions)
    requires LoadSections(path, sections, conv).Success?
    ensures var configs := LoadSections(path, sections, conv).value;
            && (forall name :: name in configs <==> NameOf(sections, name))
            && (forall name :: name in configs ==> SectionOf(sections, name, configs[name].section))
    decreases |sections|
  {
    if sections != [] {
      var n := |sections| - 1;
      var init := sections[..n];
      LoadLast(path, sections, conv);
      LoadedStreams(path, init, conv);
      NamesSnoc(sections);
    }
  }

  /** Every configuration of a successful load passed the key checks. */
  lemma {:induction false} LoadedValid(path: string, sections: seq<(string, Section)>, conv: Conversions)
    requires LoadSections(path, sections, conv).Success?
    ensures Config(LoadSections(path, sections, conv).value).Valid()
    decreases |sections|
  {
    if sections != [] {
      var n := |sections| - 1;
      LoadLast(path, sections, conv);
      LoadedValid(path, sections[..n], conv);
    }
  }

  /** Some section is called `name`. */
  predicate NameOf(sections: seq<(string, Section)>, name: string)
  {
    exists i :: 0 <= i < |sections| && sections[i].0 == name
  }

  /** Some section called `name` holds `section`. */
  predicate SectionOf(sections: seq<(string, Section)>, name: string, section: Section)
  {
    exists i :: 0 <= i < |sections| && sections[i] == (name, section)
  }

  lemma NamesSnoc(sections: seq<(string, Section)>)
    requires sections != []
    ensures var n := |sections| - 1;
            && (forall name :: NameOf(sections, name) <==> NameOf(sections[..n], name) || sections[n].0 == name)
            && (forall name, section :: SectionOf(sections[..n], name, section) ==> SectionOf(sections, name, section))
            && SectionOf(sections, sections[n].0, sections[n].1)
  {
    var n := |sections| - 1;
    assert forall i :: 0 <= i < n ==> sections[..n][i] == sections[i];
  }

  /** The loaded configuration of a file. */
  datatype Config = Config(streamConfigs: map<string, StreamConfig>) {

    /** Every configuration held passed `LoadStreamConfig`'s key checks. */
    predicate Valid()
    {
      forall name :: name in streamConfigs ==> streamConfigs[name].Valid()
    }

    /** `stream_names`: the loaded stream names. */
    function StreamNames(): set<string>
    {
      streamConfigs.Keys
    }

    /** `stream_config`: the configuration of a loaded stream, `NoSuchStream` otherwise. */
    function StreamConfigOf(name: string): Result<StreamConfig, ConfigError>
    {
      if name in streamConfigs then Success(streamConfigs[name]) else Failure(NoSuchStream(name))
    }
  }

  /** `Config(path)`: a path that is not a file is refused before the parser's outcome
      is looked at; a parser error is wrapped with the path; otherwise the sections load. */
  method NewConfig(path: string, isFile: bool, parsed: ParseOutcome, conv: Conversions)
    returns (r: Result<Config, ConfigError>)
    ensures !isFile ==> r == Failure(NoSuchConfigurationFile(path))
    ensures isFile && parsed.ParseError? ==> r == Failure(ConfigFileParsing(path, parsed.parserMessage))
    ensures isFile && parsed.Parsed? ==>
              match LoadSections(path, parsed.sections, conv)
              case Success(configs) => r == Success(Config(configs))
              case Failure(e) => r == Failure(e)
    ensures r.Success? ==> r.value.Valid()
  {
    if !isFile {
      return Failure(NoSuchConfigurationFile(path));
    }
    match parsed
    case ParseError(message) =>
      return Failure(ConfigFileParsing(path, message));
    case Parsed(sections) =>
      var configs := LoadConfig(path, sections, conv);
      if configs.Failure? {
        return Failure(configs.error);
      }
      LoadedValid(path, sections, conv);
      return Success(Config(configs.value));
  }

  /** The names of a loaded file are its section names; each one looks up a
      configuration loaded from a section of that name, and any other name gives
      `NoSuchStream` carrying the name. */
  lemma LookupAfterLoad(path: string, sections: seq<(string, Section)>, conv: Conversions, name: string)
    requires LoadSections(path, sections, conv).Success?
    ensures var config := Config(LoadSections(path, sections, conv).value);
            && (name in config.StreamNames() <==> NameOf(sections, name))
            && (name in config.StreamNames() ==>
                  && config.StreamConfigOf(name).Success?
                  && SectionOf(sections, name, config.StreamConfigOf(name).value.section))
            && (name !in config.StreamNames() ==> config.StreamConfigOf(name) == Failure(NoSuchStream(name)))
  {
    LoadedStreams(path, sections, conv);
  }
}
