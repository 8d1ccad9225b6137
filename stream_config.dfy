/** One stream's section of the configuration file: which keys it must and may
    hold, the check run when it is loaded, and the accessors with their defaults. */
module StreamConfigs {
  import opened Wrappers
  import opened ConfigErrors

  /** A configuration section: option name to the raw text configured for it. */
  type Section = map<string, string>

  const UrlKey := "url"
  const SmtpServerKey := "smtp_server"
  const SmtpServerPortKey := "smtp_server_port"
  const SmtpLoginKey := "smtp_login"
  const SmtpPasswordKey := "smtp_password"
  const FromEmailKey := "from_email"
  const ToEmailsKey := "to_emails"

  const ThresholdKey := "threshold"
  const PrecedingDurationKey := "preceding_duration"
  const TimeoutKey := "timeout"
  const CooldownKey := "cooldown"

  /** The defaults: a pitch confidence, then seconds. */
  const DefaultThreshold: real := 0.7
  const DefaultPrecedingDuration: real := 30.0
  const DefaultTimeout: real := 60.0
  const DefaultCooldown: real := 3600.0

  const RequiredKeys: set<string> :=
    {UrlKey, SmtpServerKey, SmtpServerPortKey, SmtpLoginKey, SmtpPasswordKey, FromEmailKey, ToEmailsKey}
  const OptionalKeys: set<string> := {ThresholdKey, PrecedingDurationKey, TimeoutKey, CooldownKey}

  /** The text conversions the configuration relies on: whether `json.loads` accepts a
      text and the list of strings it decodes, and the number parsing of `getint` and
      `getfloat` (`None` where they raise `ValueError`). */
  datatype Conversions = Conversions(
    isJson: string -> bool,
    jsonStrings: string -> seq<string>,
    parseInt: string -> Option<int>,
    parseFloat: string -> Option<real>)

  /** `_load_config` of one section: missing required keys are reported first, then
      keys that are neither required nor optional, then a `to_emails` value that is not
      JSON; a section that passes is kept as it is. */
  function LoadStreamConfig(section: Section, conv: Conversions): (r: Result<StreamConfig, ConfigError>)
    ensures r.Success? <==>
              && RequiredKeys <= section.Keys
              && section.Keys <= RequiredKeys + OptionalKeys
              && conv.isJson(section[ToEmailsKey])
    ensures r.Success? ==> r.value.section == section && r.value.Valid()
    ensures RequiredKeys - section.Keys != {} ==> r == Failure(MissingKeys(RequiredKeys - section.Keys))
    ensures (RequiredKeys <= section.Keys && section.Keys - (RequiredKeys + OptionalKeys) != {})
              ==> r == Failure(UnexpectedKeys(section.Keys - (RequiredKeys + OptionalKeys)))
    ensures (RequiredKeys <= section.Keys && section.Keys <= RequiredKeys + OptionalKeys
             && !conv.isJson(section[ToEmailsKey]))
              ==> r == Failure(EmailsFormat(ToEmailsKey, section[ToEmailsKey]))
    ensures r.Failure? && r.error.EmailsFormat? ==>
              && ToEmailsKey in section
              && r.error == EmailsFormat(ToEmailsKey, section[ToEmailsKey])
              && !conv.isJson(section[ToEmailsKey])
  {
    var supplied := section.Keys;
    var missing := RequiredKeys - supplied;
    if missing != {} then
      Failure(MissingKeys(missing))
    else
      var unexpected := supplied - (RequiredKeys + OptionalKeys);
      if unexpected != {} then
        Failure(UnexpectedKeys(unexpected))
      else if !conv.isJson(section[ToEmailsKey]) then
        Failure(EmailsFormat(ToEmailsKey, section[ToEmailsKey]))
      else
        Success(StreamConfig(section))
  }

  /** What `getint` or `getfloat` raises on an option whose text is not a number. */
  datatype ValueError = NotANumber(key: string, text: string)

  /** `configparser`'s `getfloat(key, fallback)`: the fallback when the option is absent,
      the parsed value when present, `ValueError` when present but not a number. */
  function GetFloat(section: Section, key: string, fallback: real, conv: Conversions): (r: Result<real, ValueError>)
    ensures key !in section ==> r == Success(fallback)
    ensures key in section && conv.parseFloat(section[key]).Some? ==> r == Success(conv.parseFloat(section[key]).value)
    ensures key in section && conv.parseFloat(section[key]).None? ==> r == Failure(NotANumber(key, section[key]))
  {
    if key !in section then Success(fallback)
    else match conv.parseFloat(section[key])
      case Some(v) => Success(v)
      case None => Failure(NotANumber(key, section[key]))
  }

  /** A loaded stream configuration. */
  datatype StreamConfig = StreamConfig(section: Section) {

    /** Holds for every configuration `LoadStreamConfig` returns. */
    predicate Valid() {
      RequiredKeys <= section.Keys && section.Keys <= RequiredKeys + OptionalKeys
    }

    function Url(): string
      requires Valid()
    {
      section[UrlKey]
    }

    function SmtpServer(): string
      requires Valid()
    {
      section[SmtpServerKey]
    }

    /** `getint` of the port: `ValueError` unless the text is an integer. */
    function SmtpServerPort(conv: Conversions): (r: Result<int, ValueError>)
      requires Valid()
      ensures conv.parseInt(section[SmtpServerPortKey]).Some? <==> r.Success?
      ensures r.Success? ==> r.value == conv.parseInt(section[SmtpServerPortKey]).value
      ensures r.Failure? ==> r.error == NotANumber(SmtpServerPortKey, section[SmtpServerPortKey])
    {
      match conv.parseInt(section[SmtpServerPortKey])
      case Some(port) => Success(port)
      case None => Failure(NotANumber(SmtpServerPortKey, section[SmtpServerPortKey]))
    }

    function SmtpLogin(): string
      requires Valid()
    {
      section[SmtpLoginKey]
    }

    function SmtpPassword(): string
      requires Valid()
    {
      section[SmtpPasswordKey]
    }

    function FromEmail(): string
      requires Valid()
    {
      section[FromEmailKey]
    }

    /** `json.loads` of the recipients' text. */
    function ToEmails(conv: Conversions): seq<string>
      requires Valid()
    {
      conv.jsonStrings(section[ToEmailsKey])
    }

    function Threshold(conv: Conversions): (r: Result<real, ValueError>)
    {
      GetFloat(section, ThresholdKey, DefaultThreshold, conv)
    }

    function PrecedingDuration(conv: Conversions): (r: Result<real, ValueError>)
    {
      GetFloat(section, PrecedingDurationKey, DefaultPrecedingDuration, conv)
    }

    function Timeout(conv: Conversions): (r: Result<real, ValueError>)
    {
      GetFloat(section, TimeoutKey, DefaultTimeout, conv)
    }

    function Cooldown(conv: Conversions): (r: Result<real, ValueError>)
    {
      GetFloat(section, CooldownKey, DefaultCooldown, conv)
    }
  }

  /** The text accessors of a loaded section give the texts the section holds. */
  lemma LoadedTexts(section: Section, conv: Conversions)
    requires LoadStreamConfig(section, conv).Success?
    ensures var c := LoadStreamConfig(section, conv).value;
            && c.Url() == section[UrlKey]
            && c.SmtpServer() == section[SmtpServerKey]
            && c.SmtpLogin() == section[SmtpLoginKey]
            && c.SmtpPassword() == section[SmtpPasswordKey]
            && c.FromEmail() == section[FromEmailKey]
            && c.ToEmails(conv) == conv.jsonStrings(section[ToEmailsKey])
  {
  }

  /** A section that sets none of the optional keys gets every default. */
  lemma DefaultsWhenAbsent(c: StreamConfig, conv: Conversions)
    requires c.Valid() && c.section.Keys * OptionalKeys == {}
    ensures c.Threshold(conv) == Success(0.7)
    ensures c.PrecedingDuration(conv) == Success(30.0)
    ensures c.Timeout(conv) == Success(60.0)
    ensures c.Cooldown(conv) == Success(3600.0)
  {
    assert ThresholdKey in OptionalKeys && PrecedingDurationKey in OptionalKeys;
    assert TimeoutKey in OptionalKeys && CooldownKey in OptionalKeys;
  }

  /** A configured number is what the accessor gives back. */
  lemma ConfiguredValues(c: StreamConfig, conv: Conversions)
    ensures (ThresholdKey in c.section && conv.parseFloat(c.section[ThresholdKey]).Some?)
              ==> c.Threshold(conv) == Success(conv.parseFloat(c.section[ThresholdKey]).value)
    ensures (PrecedingDurationKey in c.section && conv.parseFloat(c.section[PrecedingDurationKey]).Some?)
              ==> c.PrecedingDuration(conv) == Success(conv.parseFloat(c.section[PrecedingDurationKey]).value)
    ensures (TimeoutKey in c.section && conv.parseFloat(c.section[TimeoutKey]).Some?)
              ==> c.Timeout(conv) == Success(conv.parseFloat(c.section[TimeoutKey]).value)
    ensures (CooldownKey in c.section && conv.parseFloat(c.section[CooldownKey]).Some?)
              ==> c.Cooldown(conv) == Success(conv.parseFloat(c.section[CooldownKey]).value)
  {
  }

  /** With keys both missing and unexpected, only the missing ones are reported. */
  lemma MissingReportedFirst(section: Section, conv: Conversions)
    requires RequiredKeys - section.Keys != {}
    requires section.Keys - (RequiredKeys + OptionalKeys) != {}
    ensures LoadStreamConfig(section, conv) == Failure(MissingKeys(RequiredKeys - section.Keys))
  {
  }

  /** The notifier asks a stream for `to_sms_emails`, but loading refuses any section
      that sets that key: it is neither required nor optional. */
  lemma SmsRecipientsKeyRejected(section: Section, conv: Conversions)
    requires RequiredKeys <= section.Keys && "to_sms_emails" in section
    ensures LoadStreamConfig(section, conv).Failure?
    ensures LoadStreamConfig(section, conv).error.UnexpectedKeys?
    ensures "to_sms_emails" in LoadStreamConfig(section, conv).error.keys
  {
    assert "to_sms_emails" !in RequiredKeys + OptionalKeys;
    assert "to_sms_emails" in section.Keys - (RequiredKeys + OptionalKeys);
  }

  /** A section with only a URL: every SMTP key and `to_emails` are reported missing. */
  lemma OnlyUrlMissing(url: string, conv: Conversions)
    ensures LoadStreamConfig(map[UrlKey := url], conv)
              == Failure(MissingKeys({SmtpServerKey, SmtpServerPortKey, SmtpLoginKey, SmtpPasswordKey, FromEmailKey, ToEmailsKey}))
  {
    var keys := {SmtpServerKey, SmtpServerPortKey, SmtpLoginKey, SmtpPasswordKey, FromEmailKey, ToEmailsKey};
    assert map[UrlKey := url].Keys == {UrlKey};
    assert RequiredKeys - {UrlKey} == keys;
  }
}
