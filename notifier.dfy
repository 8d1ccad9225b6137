/** The notifier: the problem callback turned into an SMS-by-email (when the stream
    has SMS recipients) and an email with the audio clip attached, and the calls each
    message makes on the SMTP server, including the fall-back from implicit TLS to
    STARTTLS. Formatting a number as text (`str` of a float), guessing a file's MIME
    type and the server's handshake are inputs. */
module Notifications {
  import opened Wrappers
  import opened Strings
  import opened ConfigErrors
  import opened StreamConfigs
  import opened Configs

  // Splitting on a separator, for MIME types and paths.

  /** `s.split(sep)` for a one-character separator. */
  function Split(s: string, sep: char): (parts: seq<string>)
    ensures |parts| >= 1
    ensures forall i :: 0 <= i < |parts| ==> sep !in parts[i]
    decreases |s|
  {
    if s == [] then [""]
    else
      var rest := Split(s[1..], sep);
      if s[0] == sep then [""] + rest
      else [[s[0]] + rest[0]] + rest[1..]
  }

  /** Joining the parts with the separator gives back the text. */
  lemma {:induction false} SplitJoin(s: string, sep: char)
    ensures Join([sep], Split(s, sep)) == s
    decreases |s|
  {
    if s != [] {
      var rest := Split(s[1..], sep);
      SplitJoin(s[1..], sep);
      if s[0] == sep {
        assert ([""] + rest)[1..] == rest;
        assert s == [sep] + s[1..];
      } else if |rest| == 1 {
        assert s == [s[0]] + s[1..];
      } else {
        var parts := [[s[0]] + rest[0]] + rest[1..];
        assert parts[1..] == rest[1..];
        assert Join([sep], parts) == [s[0]] + rest[0] + [sep] + Join([sep], rest[1..]);
        assert s == [s[0]] + s[1..];
      }
    }
  }

  /** Text without the separator is one part. */
  lemma {:induction false} SplitNone(s: string, sep: char)
    requires sep !in s
    ensures Split(s, sep) == [s]
    decreases |s|
  {
    if s != [] {
      assert sep !in s[1..];
      SplitNone(s[1..], sep);
      assert s == [s[0]] + s[1..];
    }
  }

  /** Text with the separator exactly once is the two parts around it. */
  lemma {:induction false} SplitTwo(a: string, b: string, sep: char)
    requires sep !in a && sep !in b
    ensures Split(a + [sep] + b, sep) == [a, b]
    decreases |a|
  {
    if a == [] {
      assert a + [sep] + b == [sep] + b;
      assert ([sep] + b)[1..] == b;
      SplitNone(b, sep);
    } else {
      assert (a + [sep] + b)[1..] == a[1..] + [sep] + b;
      assert sep !in a[1..];
      SplitTwo(a[1..], b, sep);
      assert [a[0]] + a[1..] == a;
    }
  }

  /** Two parts back from a split are the text around its only separator. */
  lemma SplitPair(s: string, sep: char)
    requires |Split(s, sep)| == 2
    ensures var parts := Split(s, sep);
            s == parts[0] + [sep] + parts[1] && sep !in parts[0] && sep !in parts[1]
  {
    var parts := Split(s, sep);
    SplitJoin(s, sep);
    assert parts[1..] == [parts[1]];
  }

  /** `pathlib.Path(path).name`: the last component of the path, that is the text after
      its last '/' (all of it when it has none). */
  function BaseName(path: string): (name: string)
    ensures '/' !in name
    ensures EndsWith(path, name)
    ensures |name| == |path| || path[|path| - |name| - 1] == '/'
  {
    var parts := Split(path, '/');
    SplitLast(path, '/');
    parts[|parts| - 1]
  }

  /** A file name placed in a directory is that path's name. */
  lemma BaseNameInDirectory(directory: string, file: string)
    requires '/' !in file
    ensures BaseName(directory + "/" + file) == file
  {
    var path := directory + "/" + file;
    var name := BaseName(path);
    assert path[|path| - |file| - 1] == '/';
    assert forall i :: |path| - |file| <= i < |path| ==> path[i] == file[i - (|path| - |file|)];
    assert forall i :: |path| - |name| <= i < |path| ==> path[i] == name[i - (|path| - |name|)];
    assert path[|path| - |file|..] == file;
  }

  /** The text is its last part, or ends with the separator and that part. */
  lemma SplitLast(s: string, sep: char)
    ensures var parts := Split(s, sep);
            var last := parts[|parts| - 1];
            s == last || (|last| < |s| && s == s[..|s| - |last| - 1] + [sep] + last)
  {
    var parts := Split(s, sep);
    var n := |parts|;
    SplitJoin(s, sep);
    if n > 1 {
      assert parts == parts[..n - 1] + [parts[n - 1]];
      JoinSnoc([sep], parts[..n - 1], parts[n - 1]);
      var init := Join([sep], parts[..n - 1]);
      assert s == init + [sep] + parts[n - 1];
      assert s[..|s| - |parts[n - 1]| - 1] == init;
    }
  }

  // The message and the server calls of `_send_email`.

  /** The file attached to a message: its name and MIME type. Its bytes are not modelled. */
  datatype Attachment = Attachment(filename: string, maintype: string, subtype: string)

  /** An `EmailMessage` as `_send_email` fills it in: the Subject header (`None` when
      assigned `None`), From, To, the text content and the attachment. */
  datatype EmailMessage = EmailMessage(subject: Option<string>, from: string, to: string, content: string, attachment: Option<Attachment>)

  /** The calls made on `smtplib`: opening a connection, and the server's methods. */
  datatype SmtpCall =
    | OpenSsl(host: string, port: int)
    | OpenPlain(host: string, port: int)
    | Ehlo
    | StartTls
    | Login(user: string, password: string)
    | SendMessage(message: EmailMessage)
    | Quit

  /** How opening an implicit-TLS connection ends: connected, or `ssl.SSLError` with
      its `reason` (`None` for an error without one). */
  datatype Handshake = Connected | SslError(reason: Option<string>)

  /** The one handshake failure the notifier recovers from: a server that does not
      speak TLS on connect. */
  const WrongVersionNumber := "WRONG_VERSION_NUMBER"

  /** The errors that end a notification. */
  datatype NotifyError =
    | StreamLookup(configError: ConfigError)
    | BadNumber(valueError: ValueError)
    | MimeType(attachment: string)
    | MimeTypeUnpacking(mimeType: string)
    | Ssl(reason: Option<string>)
    | NoAttribute(name: string)

  /** What a notification did: the calls made on the server, in order, and the error
      that ended it, if one did. */
  datatype Attempt = Attempt(calls: seq<SmtpCall>, error: Option<NotifyError>)

  /** The attachment's MIME check: no guessed type is an `EmailAttachmentMimeTypeError`;
      a type that does not split into two parts at '/' cannot be unpacked into main
      type and subtype (`ValueError`); an empty main type or subtype is an
      `EmailAttachmentMimeTypeError` again. */
  function AttachmentOf(path: string, guessed: Option<string>): (r: Result<Attachment, NotifyError>)
    ensures r.Success? <==>
              guessed.Some? && |Split(guessed.value, '/')| == 2
              && Split(guessed.value, '/')[0] != "" && Split(guessed.value, '/')[1] != ""
    ensures r.Success? ==>
              && guessed.value == r.value.maintype + "/" + r.value.subtype
              && r.value.maintype != "" && r.value.subtype != ""
              && r.value.filename == BaseName(path)
    ensures r.Failure? && r.error.MimeType? ==> r.error.attachment == path
  {
    match guessed
    case None => Failure(MimeType(path))
    case Some(mimeType) =>
      var parts := Split(mimeType, '/');
      if |parts| != 2 then Failure(MimeTypeUnpacking(mimeType))
      else if parts[0] == "" || parts[1] == "" then Failure(MimeType(path))
      else
        SplitPair(mimeType, '/');
        Success(Attachment(BaseName(path), parts[0], parts[1]))
  }

  /** A well-formed `main/sub` type is accepted and split into its two halves. */
  lemma MimeTypeAccepted(path: string, maintype: string, subtype: string)
    requires maintype != "" && subtype != "" && '/' !in maintype && '/' !in subtype
    ensures AttachmentOf(path, Some(maintype + "/" + subtype)) == Success(Attachment(BaseName(path), maintype, subtype))
  {
    SplitTwo(maintype, subtype, '/');
  }

  /** The server's settings as a stream configures them. */
  datatype Server = Server(host: string, port: int, login: string, password: string, fromEmail: string)

  /** The arguments of one `_send_email` call besides the server's settings. */
  datatype Outgoing = Outgoing(toEmails: seq<string>, subject: Option<string>, content: string, attachment: Option<string>)

  /** The connection: implicit TLS first; on `WRONG_VERSION_NUMBER`, a plain connection
      upgraded by STARTTLS between two EHLOs; any other SSL error propagates. */
  function Connect(host: string, port: int, handshake: Handshake): Attempt
  {
    match handshake
    case Connected => Attempt([OpenSsl(host, port)], None)
    case SslError(reason) =>
      if reason == Some(WrongVersionNumber) then
        Attempt([OpenSsl(host, port), OpenPlain(host, port), Ehlo, StartTls, Ehlo], None)
      else Attempt([OpenSsl(host, port)], Some(Ssl(reason)))
  }

  /** A connection, then one login, one send and one quit. */
  function Session(server: Server, message: EmailMessage, handshake: Handshake): Attempt
  {
    var connected := Connect(server.host, server.port, handshake);
    if connected.error.Some? then connected
    else Attempt(connected.calls + [Login(server.login, server.password), SendMessage(message), Quit], None)
  }

  /** The message `_send_email` builds, given its attachment. */
  function Compose(server: Server, out: Outgoing, attachment: Option<Attachment>): EmailMessage
  {
    EmailMessage(out.subject, server.fromEmail, Join(", ", out.toEmails), out.content, attachment)
  }

  /** `_send_email`: the attachment's MIME check comes before any connection. */
  function Send(server: Server, out: Outgoing, guessType: string -> Option<string>, handshake: Handshake): Attempt
  {
    match out.attachment
    case None => Session(server, Compose(server, out, None), handshake)
    case Some(path) =>
      match AttachmentOf(path, guessType(path))
      case Failure(e) => Attempt([], Some(e))
      case Success(a) => Session(server, Compose(server, out, Some(a)), handshake)
  }

  /** `_send_email`, step by step: the message's headers, content and attachment, then
      the connection and the transaction. */
  method SendEmail(server: Server, out: Outgoing, guessType: string -> Option<string>, handshake: Handshake)
    returns (r: Attempt)
    ensures r == Send(server, out, guessType, handshake)
  {
    var message := EmailMessage(None, "", "", "", None);
    message := message.(subject := out.subject);
    message := message.(from := server.fromEmail);
    message := message.(to := Join(", ", out.toEmails));
    message := message.(content := out.content);
    if out.attachment.Some? {
      var attachment := AttachmentOf(out.attachment.value, guessType(out.attachment.value));
      if attachment.Failure? {
        return Attempt([], Some(attachment.error));
      }
      message := message.(attachment := Some(attachment.value));
    }
    var calls := [OpenSsl(server.host, server.port)];
    if handshake.SslError? {
      if handshake.reason != Some(WrongVersionNumber) {
        return Attempt(calls, Some(Ssl(handshake.reason)));
      }
      calls := calls + [OpenPlain(server.host, server.port), Ehlo, StartTls, Ehlo];
    }
    calls := calls + [Login(server.login, server.password), SendMessage(message), Quit];
    return Attempt(calls, None);
  }

  /** The calls that make up the mail transaction, as opposed to the connection. */
  predicate Transactional(call: SmtpCall)
  {
    call.Login? || call.SendMessage? || call.Quit?
  }

  /** A session that gets through the handshake logs in, sends and quits, in that
      order, as its last three calls, and makes none of these calls before them; one
      that does not makes none of them at all. */
  lemma OneTransaction(server: Server, message: EmailMessage, handshake: Handshake)
    ensures var a := Session(server, message, handshake);
            && (a.error.None? ==>
                  && |a.calls| >= 3
                  && a.calls[|a.calls| - 3..] == [Login(server.login, server.password), SendMessage(message), Quit]
                  && forall i :: 0 <= i < |a.calls| - 3 ==> !Transactional(a.calls[i]))
            && (a.error.Some? ==> forall i :: 0 <= i < |a.calls| ==> !Transactional(a.calls[i]))
  {
    var connected := Connect(server.host, server.port, handshake);
    var tail := [Login(server.login, server.password), SendMessage(message), Quit];
    assert forall i :: 0 <= i < |connected.calls| ==> !Transactional(connected.calls[i]);
    if connected.error.None? {
      var a := connected.calls + tail;
      assert a[|a| - 3..] == tail;
      assert forall i :: 0 <= i < |a| - 3 ==> a[i] == connected.calls[i];
    }
  }

  /** Implicit TLS is always tried first. The plain connection, and STARTTLS on it, are
      used exactly when the handshake failed with `WRONG_VERSION_NUMBER`; any other SSL
      error ends the attempt after that first try, with that error. */
  lemma FallbackOnlyOnWrongVersion(server: Server, message: EmailMessage, handshake: Handshake)
    ensures var a := Session(server, message, handshake);
            && a.calls != [] && a.calls[0] == OpenSsl(server.host, server.port)
            && (OpenPlain(server.host, server.port) in a.calls <==> handshake == SslError(Some(WrongVersionNumber)))
            && (StartTls in a.calls <==> handshake == SslError(Some(WrongVersionNumber)))
            && (a.error.Some? <==> handshake.SslError? && handshake.reason != Some(WrongVersionNumber))
            && (a.error.Some? ==> a == Attempt([OpenSsl(server.host, server.port)], Some(Ssl(handshake.reason))))
  {
  }

  /** A message with an attachment whose type cannot be guessed is never sent: the
      error comes before any connection. */
  lemma UnknownMimeTypeSendsNothing(server: Server, out: Outgoing, guessType: string -> Option<string>, handshake: Handshake)
    requires out.attachment.Some? && guessType(out.attachment.value).None?
    ensures Send(server, out, guessType, handshake) == Attempt([], Some(MimeType(out.attachment.value)))
  {
  }

  /** The message sent carries the subject and content given, comes from the sender,
      is addressed to the recipients joined with ", ", and carries the attachment
      exactly when a file was given. */
  lemma SentMessage(server: Server, out: Outgoing, guessType: string -> Option<string>, handshake: Handshake, m: EmailMessage)
    requires SendMessage(m) in Send(server, out, guessType, handshake).calls
    ensures m.subject == out.subject && m.from == server.fromEmail && m.content == out.content
    ensures m.to == Join(", ", out.toEmails)
    ensures m.attachment.Some? <==> out.attachment.Some?
    ensures m.attachment.Some? ==> m.attachment.value.filename == BaseName(out.attachment.value)
  {
    var attachment: Option<Attachment> := None;
    if out.attachment.Some? {
      var path := out.attachment.value;
      attachment := Some(AttachmentOf(path, guessType(path)).value);
    }
    OnlyMessageSent(server, Compose(server, out, attachment), handshake, m);
  }

  /** The one message a session sends is the one it was given. */
  lemma OnlyMessageSent(server: Server, message: EmailMessage, handshake: Handshake, m: EmailMessage)
    requires SendMessage(m) in Session(server, message, handshake).calls
    ensures m == message
  {
    var connected := Connect(server.host, server.port, handshake);
    assert SendMessage(m) !in connected.calls;
  }

  // The texts of the notifications.

  // The fixed parts of the texts, between the stream's name and the numbers.
  const SubjectLead := "Stream Monitor: problem detected on "
  const IssueLead := "Stream Monitor has detected an issue on stream '"
  const IssueFor := "' for "
  const Greeting := "Hello,\n\n"
  const ListenRequest := " second(s). Please listen to the attached audio sample to confirm and take appropriate action. "
  const NoteLead := "Note that the sample begins with the last "
  const NoteMiddle := " seconds of audio before the problem was detected, followed by the "
  const NoteEnd := " seconds of audio considered problematic. "
  const ClosingLead := "You won't be notified again for "
  const ClosingEnd := " second(s).\n\nThanks for using Stream Monitor!"
  const SmsEnd := " second(s). Check your email for more information."

  /** The email's subject. */
  function Subject(streamName: string): string
  {
    SubjectLead + streamName
  }

  function Opening(streamName: string, timeout: string): string
  {
    Greeting + IssueLead + streamName + IssueFor + timeout + ListenRequest
  }

  /** The sentence on the audio preceding the problem. */
  function PrecedingNote(precedingDuration: string, timeout: string): string
  {
    NoteLead + precedingDuration + NoteMiddle + timeout + NoteEnd
  }

  function Closing(cooldown: string): string
  {
    ClosingLead + cooldown + ClosingEnd
  }

  /** The email's text: the opening, the note on the preceding audio when there is
      any, then the cooldown and the sign-off. */
  function EmailBody(streamName: string, timeout: real, precedingDuration: real, cooldown: real, show: real -> string): string
  {
    var note := if precedingDuration > 0.0 then PrecedingNote(show(precedingDuration), show(timeout)) else "";
    Opening(streamName, show(timeout)) + note + Closing(show(cooldown))
  }

  /** The email opens with the stream's name and timeout, continues with the note on
      the preceding audio exactly when the preceding duration is positive, and closes
      with the cooldown and the sign-off. */
  lemma {:induction false} EmailBodyLayout(streamName: string, timeout: real, precedingDuration: real, cooldown: real, show: real -> string)
    ensures var body := EmailBody(streamName, timeout, precedingDuration, cooldown, show);
            var opening := Opening(streamName, show(timeout));
            && StartsWith(body, opening)
            && (precedingDuration > 0.0 <==> StartsWith(body[|opening|..], NoteLead))
            && EndsWith(body, Closing(show(cooldown)))
  {
    var note := if precedingDuration > 0.0 then PrecedingNote(show(precedingDuration), show(timeout)) else "";
    NoteLeads(show(precedingDuration), show(timeout));
    ClosingIsNoNote(show(cooldown));
    Layout(Opening(streamName, show(timeout)), note, Closing(show(cooldown)), NoteLead);
  }

  lemma NoteLeads(precedingDuration: string, timeout: string)
    ensures StartsWith(PrecedingNote(precedingDuration, timeout), NoteLead)
  {
  }

  lemma ClosingIsNoNote(cooldown: string)
    ensures !StartsWith(Closing(cooldown), NoteLead)
  {
    var closing := Closing(cooldown);
    assert closing[0] == ClosingLead[0] == 'Y' && NoteLead[0] == 'N';
    if |NoteLead| <= |closing| {
      assert closing[..|NoteLead|][0] == closing[0];
    }
  }

  /** Where the three parts of a concatenation sit, and which one the middle part's
      leading text tells apart. */
  lemma Layout(a: string, b: string, c: string, lead: string)
    requires b != [] ==> StartsWith(b, lead)
    requires !StartsWith(c, lead)
    ensures var s := a + b + c;
            && StartsWith(s, a) && EndsWith(s, c)
            && (b != [] <==> StartsWith(s[|a|..], lead))
  {
    var s := a + b + c;
    assert s[..|a|] == a;
    assert s[|s| - |c|..] == c;
    assert s[|a|..] == b + c;
    if b != [] {
      assert (b + c)[..|lead|] == b[..|lead|];
    }
  }

  predicate StartsWith(s: string, prefix: string)
  {
    |prefix| <= |s| && s[..|prefix|] == prefix
  }

  predicate EndsWith(s: string, suffix: string)
  {
    |suffix| <= |s| && s[|s| - |suffix|..] == suffix
  }

  /** The SMS's text. */
  function SmsBody(streamName: string, timeout: real, show: real -> string): string
  {
    IssueLead + streamName + IssueFor + show(timeout) + SmsEnd
  }

  /** The server settings of a stream; the port must read as an integer. */
  function ServerOf(c: StreamConfig, conv: Conversions): (r: Result<Server, NotifyError>)
    requires c.Valid()
    ensures r.Success? <==> c.SmtpServerPort(conv).Success?
    ensures r.Success? ==> r.value == Server(c.SmtpServer(), c.SmtpServerPort(conv).value, c.SmtpLogin(), c.SmtpPassword(), c.FromEmail())
  {
    match c.SmtpServerPort(conv)
    case Failure(e) => Failure(BadNumber(e))
    case Success(port) => Success(Server(c.SmtpServer(), port, c.SmtpLogin(), c.SmtpPassword(), c.FromEmail()))
  }

  /** A number read from the configuration, its `ValueError` as a notification error. */
  function Number(r: Result<real, ValueError>): Result<real, NotifyError>
  {
    match r
    case Failure(e) => Failure(BadNumber(e))
    case Success(v) => Success(v)
  }

  /** `_send_notification_sms`: nothing at all without SMS recipients; otherwise a
      message without subject or attachment to those recipients. */
  function NotifySms(c: StreamConfig, streamName: string, smsRecipients: seq<string>, conv: Conversions,
                     show: real -> string, guessType: string -> Option<string>, handshake: Handshake): Attempt
    requires c.Valid()
  {
    if smsRecipients == [] then Attempt([], None)
    else
      var timeout := Number(c.Timeout(conv));
      var server := ServerOf(c, conv);
      if timeout.Failure? then Attempt([], Some(timeout.error))
      else if server.Failure? then Attempt([], Some(server.error))
      else Send(server.value, Outgoing(smsRecipients, None, SmsBody(streamName, timeout.value, show), None), guessType, handshake)
  }

  /** `_send_notification_email`: the subject naming the stream, the email text, the
      stream's recipients and the clip attached. */
  function NotifyEmail(c: StreamConfig, streamName: string, samplePath: string, conv: Conversions,
                       show: real -> string, guessType: string -> Option<string>, handshake: Handshake): Attempt
    requires c.Valid()
  {
    var timeout := Number(c.Timeout(conv));
    var preceding := Number(c.PrecedingDuration(conv));
    var cooldown := Number(c.Cooldown(conv));
    var server := ServerOf(c, conv);
    if timeout.Failure? then Attempt([], Some(timeout.error))
    else if preceding.Failure? then Attempt([], Some(preceding.error))
    else if cooldown.Failure? then Attempt([], Some(cooldown.error))
    else if server.Failure? then Attempt([], Some(server.error))
    else
      var body := EmailBody(streamName, timeout.value, preceding.value, cooldown.value, show);
      Send(server.value, Outgoing(c.ToEmails(conv), Some(Subject(streamName)), body, Some(samplePath)), guessType, handshake)
  }

  /** `problem_detected_callback`: the stream's configuration looked up by name, its
      timeout read for the log line, then the SMS and, if that went through, the email.
      The SMS recipients are an input: `StreamConfig` has no `to_sms_emails`. Each of the
      two messages opens its own connection, with its own handshake. */
  function Notify(config: Config, streamName: string, samplePath: string, smsRecipients: seq<string>, conv: Conversions,
                  show: real -> string, guessType: string -> Option<string>, smsHandshake: Handshake, emailHandshake: Handshake): Attempt
    requires config.Valid()
  {
    var lookup := config.StreamConfigOf(streamName);
    if lookup.Failure? then Attempt([], Some(StreamLookup(lookup.error)))
    else
      var c := lookup.value;
      var timeout := Number(c.Timeout(conv));
      if timeout.Failure? then Attempt([], Some(timeout.error))
      else
        var sms := NotifySms(c, streamName, smsRecipients, conv, show, guessType, smsHandshake);
        if sms.error.Some? then sms
        else
          var email := NotifyEmail(c, streamName, samplePath, conv, show, guessType, emailHandshake);
          Attempt(sms.calls + email.calls, email.error)
  }

  /** `problem_detected_callback` as written: after the lookup and the timeout of the
      log line, `_send_notification_sms` asks the stream configuration for
      `to_sms_emails`, which `StreamConfig` does not define, so every call that gets
      that far ends in `AttributeError` before anything is sent. */
  function NotifyAsWritten(config: Config, streamName: string, conv: Conversions): (a: Attempt)
    requires config.Valid()
    ensures a.calls == [] && a.error.Some?
  {
    match config.StreamConfigOf(streamName)
    case Failure(e) => Attempt([], Some(StreamLookup(e)))
    case Success(c) =>
      match Number(c.Timeout(conv))
      case Failure(e) => Attempt([], Some(e))
      case Success(_) => Attempt([], Some(NoAttribute("to_sms_emails")))
  }

  /** As written, no notification is ever delivered, even for a loaded stream whose
      numbers all read; with the SMS recipients given, the same stream gets its email. */
  lemma AsWrittenNeverNotifies(config: Config, streamName: string, samplePath: string, conv: Conversions,
                               show: real -> string, guessType: string -> Option<string>,
                               smsHandshake: Handshake, handshake: Handshake)
    requires config.Valid() && streamName in config.StreamNames()
    requires config.streamConfigs[streamName].Timeout(conv).Success?
    ensures NotifyAsWritten(config, streamName, conv) == Attempt([], Some(NoAttribute("to_sms_emails")))
    ensures Notify(config, streamName, samplePath, [], conv, show, guessType, smsHandshake, handshake)
              == NotifyEmail(config.streamConfigs[streamName], streamName, samplePath, conv, show, guessType, handshake)
  {
    NoSmsWithoutRecipients(config, streamName, samplePath, conv, show, guessType, smsHandshake, handshake);
  }

  /** `_send_notification_sms`, step by step. */
  method SendNotificationSms(c: StreamConfig, streamName: string, smsRecipients: seq<string>, conv: Conversions,
                             show: real -> string, guessType: string -> Option<string>, handshake: Handshake)
    returns (r: Attempt)
    requires c.Valid()
    ensures r == NotifySms(c, streamName, smsRecipients, conv, show, guessType, handshake)
  {
    if smsRecipients == [] {
      return Attempt([], None);
    }
    var timeout := Number(c.Timeout(conv));
    if timeout.Failure? {
      return Attempt([], Some(timeout.error));
    }
    var message := SmsBody(streamName, timeout.value, show);
    var server := ServerOf(c, conv);
    if server.Failure? {
      return Attempt([], Some(server.error));
    }
    r := SendEmail(server.value, Outgoing(smsRecipients, None, message, None), guessType, handshake);
  }

  /** `_send_notification_email`, step by step. */
  method SendNotificationEmail(c: StreamConfig, streamName: string, samplePath: string, conv: Conversions,
                               show: real -> string, guessType: string -> Option<string>, handshake: Handshake)
    returns (r: Attempt)
    requires c.Valid()
    ensures r == NotifyEmail(c, streamName, samplePath, conv, show, guessType, handshake)
  {
    var subject := Subject(streamName);
    var timeout := Number(c.Timeout(conv));
    if timeout.Failure? {
      return Attempt([], Some(timeout.error));
    }
    var preceding := Number(c.PrecedingDuration(conv));
    if preceding.Failure? {
      return Attempt([], Some(preceding.error));
    }
    var cooldown := Number(c.Cooldown(conv));
    if cooldown.Failure? {
      return Attempt([], Some(cooldown.error));
    }
    var message := EmailBody(streamName, timeout.value, preceding.value, cooldown.value, show);
    var server := ServerOf(c, conv);
    if server.Failure? {
      return Attempt([], Some(server.error));
    }
    r := SendEmail(server.value, Outgoing(c.ToEmails(conv), Some(subject), message, Some(samplePath)), guessType, handshake);
  }

  /** The callback, as the stream calls it: SMS first, the email after it. */
  method ProblemDetected(config: Config, streamName: string, samplePath: string, smsRecipients: seq<string>,
                         conv: Conversions, show: real -> string, guessType: string -> Option<string>,
                         smsHandshake: Handshake, emailHandshake: Handshake)
    returns (r: Attempt)
    requires config.Valid()
    ensures r == Notify(config, streamName, samplePath, smsRecipients, conv, show, guessType, smsHandshake, emailHandshake)
  {
    var lookup := config.StreamConfigOf(streamName);
    if lookup.Failure? {
      return Attempt([], Some(StreamLookup(lookup.error)));
    }
    var c := lookup.value;
    var timeout := Number(c.Timeout(conv));
    if timeout.Failure? {
      return Attempt([], Some(timeout.error));
    }
    var sms := SendNotificationSms(c, streamName, smsRecipients, conv, show, guessType, smsHandshake);
    if sms.error.Some? {
      return sms;
    }
    var email := SendNotificationEmail(c, streamName, samplePath, conv, show, guessType, emailHandshake);
    return Attempt(sms.calls + email.calls, email.error);
  }

  /** An unknown stream name is reported as `NoSuchStream` carrying that name, and
      nothing is sent. */
  lemma UnknownStreamNotifiesNobody(config: Config, streamName: string, samplePath: string, smsRecipients: seq<string>,
                                    conv: Conversions, show: real -> string, guessType: string -> Option<string>,
                                    smsHandshake: Handshake, emailHandshake: Handshake)
    requires config.Valid() && streamName !in config.StreamNames()
    ensures Notify(config, streamName, samplePath, smsRecipients, conv, show, guessType, smsHandshake, emailHandshake)
              == Attempt([], Some(StreamLookup(NoSuchStream(streamName))))
  {
  }

  /** Without SMS recipients the notification is the email alone. */
  lemma NoSmsWithoutRecipients(config: Config, streamName: string, samplePath: string, conv: Conversions,
                               show: real -> string, guessType: string -> Option<string>,
                               smsHandshake: Handshake, handshake: Handshake)
    requires config.Valid() && streamName in config.StreamNames()
    requires config.streamConfigs[streamName].Timeout(conv).Success?
    ensures Notify(config, streamName, samplePath, [], conv, show, guessType, smsHandshake, handshake)
              == NotifyEmail(config.streamConfigs[streamName], streamName, samplePath, conv, show, guessType, handshake)
  {
    var email := NotifyEmail(config.streamConfigs[streamName], streamName, samplePath, conv, show, guessType, handshake);
    assert [] + email.calls == email.calls;
  }

  /** When the email goes out: every number reads, the clip's type is a `main/sub`
      type and the handshake is one the notifier gets through. The message is then the
      one transaction after the connection: from the stream's sender, to its
      recipients, with the subject naming the stream and the clip attached. */
  lemma EmailOutcome(c: StreamConfig, streamName: string, samplePath: string, conv: Conversions,
                     show: real -> string, guessType: string -> Option<string>, handshake: Handshake)
    requires c.Valid()
    ensures var a := NotifyEmail(c, streamName, samplePath, conv, show, guessType, handshake);
            && (a.error.None? <==>
                  && c.Timeout(conv).Success? && c.PrecedingDuration(conv).Success? && c.Cooldown(conv).Success?
                  && c.SmtpServerPort(conv).Success? && AttachmentOf(samplePath, guessType(samplePath)).Success?
                  && (handshake.Connected? || handshake.reason == Some(WrongVersionNumber)))
            && (a.error.None? ==>
                  && |a.calls| >= 3
                  && a.calls[..|a.calls| - 3] == Connect(c.SmtpServer(), c.SmtpServerPort(conv).value, handshake).calls
                  && a.calls[|a.calls| - 3] == Login(c.SmtpLogin(), c.SmtpPassword())
                  && a.calls[|a.calls| - 1] == Quit
                  && a.calls[|a.calls| - 2].SendMessage?
                  && var m := a.calls[|a.calls| - 2].message;
                  && m.subject == Some(Subject(streamName)) && m.from == c.FromEmail()
                  && m.to == Join(", ", c.ToEmails(conv))
                  && m.attachment == Some(AttachmentOf(samplePath, guessType(samplePath)).value))
  {
    var a := NotifyEmail(c, streamName, samplePath, conv, show, guessType, handshake);
    if c.Timeout(conv).Success? && c.PrecedingDuration(conv).Success? && c.Cooldown(conv).Success?
       && c.SmtpServerPort(conv).Success? {
      var server := ServerOf(c, conv).value;
      var body := EmailBody(streamName, c.Timeout(conv).value, c.PrecedingDuration(conv).value, c.Cooldown(conv).value, show);
      var out := Outgoing(c.ToEmails(conv), Some(Subject(streamName)), body, Some(samplePath));
      assert a == Send(server, out, guessType, handshake);
      SendOutcome(server, out, guessType, handshake);
    }
  }

  /** One `_send_email` with an attachment goes through exactly when the attachment's
      type is accepted and the handshake is one the notifier gets through; its calls
      are then the connection and the one transaction for the composed message. */
  lemma SendOutcome(server: Server, out: Outgoing, guessType: string -> Option<string>, handshake: Handshake)
    requires out.attachment.Some?
    ensures var a := Send(server, out, guessType, handshake);
            var attachment := AttachmentOf(out.attachment.value, guessType(out.attachment.value));
            && (a.error.None? <==> attachment.Success? && (handshake.Connected? || handshake.reason == Some(WrongVersionNumber)))
            && (a.error.None? ==>
                  a.calls == Connect(server.host, server.port, handshake).calls
                             + [Login(server.login, server.password), SendMessage(Compose(server, out, Some(attachment.value))), Quit])
  {
  }

  /** When the SMS goes out: there are SMS recipients, the timeout and the port read and
      the handshake is one the notifier gets through. The message is then the one
      transaction after the connection, to the SMS recipients, with neither subject nor
      attachment. */
  lemma SmsOutcome(c: StreamConfig, streamName: string, smsRecipients: seq<string>, conv: Conversions,
                   show: real -> string, guessType: string -> Option<string>, handshake: Handshake)
    requires c.Valid() && smsRecipients != []
    ensures var a := NotifySms(c, streamName, smsRecipients, conv, show, guessType, handshake);
            && (a.error.None? <==>
                  && c.Timeout(conv).Success? && c.SmtpServerPort(conv).Success?
                  && (handshake.Connected? || handshake.reason == Some(WrongVersionNumber)))
            && (a.error.None? ==>
                  && |a.calls| >= 3
                  && a.calls[..|a.calls| - 3] == Connect(c.SmtpServer(), c.SmtpServerPort(conv).value, handshake).calls
                  && a.calls[|a.calls| - 3] == Login(c.SmtpLogin(), c.SmtpPassword())
                  && a.calls[|a.calls| - 1] == Quit
                  && a.calls[|a.calls| - 2].SendMessage?
                  && var m := a.calls[|a.calls| - 2].message;
                  && m.subject.None? && m.from == c.FromEmail() && m.attachment.None?
                  && m.to == Join(", ", smsRecipients))
  {
    var a := NotifySms(c, streamName, smsRecipients, conv, show, guessType, handshake);
    if a.error.None? {
      var server := ServerOf(c, conv).value;
      var out := Outgoing(smsRecipients, None, SmsBody(streamName, c.Timeout(conv).value, show), None);
      var message := Compose(server, out, None);
      assert a == Session(server, message, handshake);
      OneTransaction(server, message, handshake);
      var connected := Connect(server.host, server.port, handshake);
      assert a.calls == connected.calls + [Login(server.login, server.password), SendMessage(message), Quit];
      assert a.calls[..|a.calls| - 3] == connected.calls;
    }
  }

  /** With SMS recipients and every step going through, two messages are sent: first
      the SMS, to the SMS recipients, without subject or attachment; then the email,
      to the stream's recipients, with its subject and the clip. */
  lemma SmsBeforeEmail(config: Config, streamName: string, samplePath: string, smsRecipients: seq<string>,
                       conv: Conversions, show: real -> string, guessType: string -> Option<string>,
                       smsHandshake: Handshake, emailHandshake: Handshake)
    requires config.Valid() && streamName in config.StreamNames() && smsRecipients != []
    requires Notify(config, streamName, samplePath, smsRecipients, conv, show, guessType, smsHandshake, emailHandshake).error.None?
    ensures var a := Notify(config, streamName, samplePath, smsRecipients, conv, show, guessType, smsHandshake, emailHandshake);
            var c := config.streamConfigs[streamName];
            exists i, j :: 0 <= i < j < |a.calls| && a.calls[i].SendMessage? && a.calls[j].SendMessage?
              && a.calls[i].message.to == Join(", ", smsRecipients)
              && a.calls[i].message.subject.None? && a.calls[i].message.attachment.None?
              && a.calls[j].message.to == Join(", ", c.ToEmails(conv))
              && a.calls[j].message.subject == Some(Subject(streamName))
              && a.calls[j].message.attachment.Some?
  {
    var c := config.streamConfigs[streamName];
    var sms := NotifySms(c, streamName, smsRecipients, conv, show, guessType, smsHandshake);
    var email := NotifyEmail(c, streamName, samplePath, conv, show, guessType, emailHandshake);
    var a := Notify(config, streamName, samplePath, smsRecipients, conv, show, guessType, smsHandshake, emailHandshake);
    assert a == Attempt(sms.calls + email.calls, email.error);
    SmsOutcome(c, streamName, smsRecipients, conv, show, guessType, smsHandshake);
    EmailOutcome(c, streamName, samplePath, conv, show, guessType, emailHandshake);
    var i := |sms.calls| - 2;
    var j := |a.calls| - 2;
    assert a.calls[i] == sms.calls[i];
    assert a.calls[j] == email.calls[|email.calls| - 2];
  }

  /** The two connections are independent: an SMS that goes out over implicit TLS does
      not save the email from a handshake that fails for another reason. The callback
      then ends with that SSL error after the SMS and the email's one connection try. */
  lemma SmsSentEmailRefused(config: Config, streamName: string, samplePath: string, smsRecipients: seq<string>,
                            conv: Conversions, show: real -> string, guessType: string -> Option<string>, reason: Option<string>)
    requires config.Valid() && streamName in config.StreamNames() && smsRecipients != []
    requires reason != Some(WrongVersionNumber)
    requires var c := config.streamConfigs[streamName];
             && c.Timeout(conv).Success? && c.PrecedingDuration(conv).Success? && c.Cooldown(conv).Success?
             && c.SmtpServerPort(conv).Success? && AttachmentOf(samplePath, guessType(samplePath)).Success?
    ensures var c := config.streamConfigs[streamName];
            var sms := NotifySms(c, streamName, smsRecipients, conv, show, guessType, Connected);
            var a := Notify(config, streamName, samplePath, smsRecipients, conv, show, guessType, Connected, SslError(reason));
            && sms.error.None?
            && a == Attempt(sms.calls + [OpenSsl(c.SmtpServer(), c.SmtpServerPort(conv).value)], Some(Ssl(reason)))
  {
    var c := config.streamConfigs[streamName];
    SmsOutcome(c, streamName, smsRecipients, conv, show, guessType, Connected);
  }

  /** The email of the stream the tests configure: server smtp.example.com on port 25,
      login "login", password "password", sender from@example.com, the one recipient
      to@example.com, no optional keys, and a clip of type audio/mpeg. Through a server
      the notifier gets a connection to, it is the one transaction after the
      connection, carrying the subject, the headers and the attachment. */
  lemma ExampleMessage(c: StreamConfig, samplePath: string, conv: Conversions, show: real -> string,
                       guessType: string -> Option<string>, handshake: Handshake)
    requires c.Valid()
    requires && c.SmtpServer() == "smtp.example.com" && c.SmtpLogin() == "login" && c.SmtpPassword() == "password"
             && c.FromEmail() == "from@example.com" && c.ToEmails(conv) == ["to@example.com"]
             && c.SmtpServerPort(conv) == Success(25)
             && c.section.Keys * OptionalKeys == {}
    requires guessType(samplePath) == Some("audio/mpeg")
    requires handshake.Connected? || handshake.reason == Some(WrongVersionNumber)
    ensures var a := NotifyEmail(c, "stream", samplePath, conv, show, guessType, handshake);
            && a.error.None? && |a.calls| >= 3
            && a.calls[..|a.calls| - 3] == Connect("smtp.example.com", 25, handshake).calls
            && a.calls[|a.calls| - 3] == Login("login", "password")
            && a.calls[|a.calls| - 1] == Quit
            && a.calls[|a.calls| - 2].SendMessage?
            && a.calls[|a.calls| - 2].message.subject == Some("Stream Monitor: problem detected on stream")
            && a.calls[|a.calls| - 2].message.from == "from@example.com"
            && a.calls[|a.calls| - 2].message.to == "to@example.com"
            && a.calls[|a.calls| - 2].message.attachment == Some(Attachment(BaseName(samplePath), "audio", "mpeg"))
  {
    DefaultsWhenAbsent(c, conv);
    MimeTypeAccepted(samplePath, "audio", "mpeg");
    assert "audio" + "/" + "mpeg" == "audio/mpeg";
    EmailOutcome(c, "stream", samplePath, conv, show, guessType, handshake);
    StreamSubject();
  }

  lemma StreamSubject()
    ensures Subject("stream") == "Stream Monitor: problem detected on stream"
  {
  }

  /** The email the stream's tests expect, through the callback with no SMS recipients
      and a server that accepts implicit TLS: one connection, one login, the message
      and the quit. */
  lemma ExampleEmail(config: Config, samplePath: string, conv: Conversions, show: real -> string,
                     guessType: string -> Option<string>, smsHandshake: Handshake)
    requires config.Valid() && "stream" in config.StreamNames()
    requires var c := config.streamConfigs["stream"];
             && c.SmtpServer() == "smtp.example.com" && c.SmtpLogin() == "login" && c.SmtpPassword() == "password"
             && c.FromEmail() == "from@example.com" && c.ToEmails(conv) == ["to@example.com"]
             && c.SmtpServerPort(conv) == Success(25)
             && c.section.Keys * OptionalKeys == {}
    requires guessType(samplePath) == Some("audio/mpeg")
    ensures var a := Notify(config, "stream", samplePath, [], conv, show, guessType, smsHandshake, Connected);
            && a.error.None? && |a.calls| == 4
            && a.calls[0] == OpenSsl("smtp.example.com", 25)
            && a.calls[1] == Login("login", "password")
            && a.calls[2].SendMessage?
            && a.calls[2].message.subject == Some("Stream Monitor: problem detected on stream")
            && a.calls[2].message.to == "to@example.com"
            && a.calls[2].message.attachment == Some(Attachment(BaseName(samplePath), "audio", "mpeg"))
            && a.calls[3] == Quit
  {
    var c := config.streamConfigs["stream"];
    DefaultsWhenAbsent(c, conv);
    NoSmsWithoutRecipients(config, "stream", samplePath, conv, show, guessType, smsHandshake, Connected);
    ExampleMessage(c, samplePath, conv, show, guessType, Connected);
    var a := NotifyEmail(c, "stream", samplePath, conv, show, guessType, Connected);
    assert a.calls[..|a.calls| - 3] == [OpenSsl("smtp.example.com", 25)];
    assert a.calls[0] == a.calls[..|a.calls| - 3][0];
  }

  /** The same email through a server that only speaks STARTTLS: the implicit-TLS try,
      then the plain connection, EHLO, STARTTLS, EHLO, and the one transaction. */
  lemma ExampleEmailStartTls(config: Config, samplePath: string, conv: Conversions, show: real -> string,
                             guessType: string -> Option<string>, smsHandshake: Handshake)
    requires config.Valid() && "stream" in config.StreamNames()
    requires var c := config.streamConfigs["stream"];
             && c.SmtpServer() == "smtp.example.com" && c.SmtpLogin() == "login" && c.SmtpPassword() == "password"
             && c.FromEmail() == "from@example.com" && c.ToEmails(conv) == ["to@example.com"]
             && c.SmtpServerPort(conv) == Success(25)
             && c.section.Keys * OptionalKeys == {}
    requires guessType(samplePath) == Some("audio/mpeg")
    ensures var a := Notify(config, "stream", samplePath, [], conv, show, guessType, smsHandshake, SslError(Some("WRONG_VERSION_NUMBER")));
            && a.error.None? && |a.calls| == 8
            && a.calls[..5] == [OpenSsl("smtp.example.com", 25), OpenPlain("smtp.example.com", 25), Ehlo, StartTls, Ehlo]
            && a.calls[5] == Login("login", "password")
            && a.calls[6].SendMessage?
            && a.calls[7] == Quit
  {
    var c := config.streamConfigs["stream"];
    var handshake := SslError(Some("WRONG_VERSION_NUMBER"));
    DefaultsWhenAbsent(c, conv);
    NoSmsWithoutRecipients(config, "stream", samplePath, conv, show, guessType, smsHandshake, handshake);
    ExampleMessage(c, samplePath, conv, show, guessType, handshake);
  }
}
