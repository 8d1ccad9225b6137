/** The configuration errors of stream_monitor and the text each one carries
    (`str(error)`), including the humanised key lists of the missing-keys and
    unexpected-keys errors. */
module ConfigErrors {
  import opened Strings

  /** One configuration error; `Message` gives its text. The first three carry the
      configuration file's path, as `InvalidConfigError` and its subclasses do. */
  datatype ConfigError =
    | InvalidStreamConfig(path: string, stream: string, message: string)
    | NoSuchConfigurationFile(path: string)
    | ConfigFileParsing(path: string, parserMessage: string)
    | MissingKeys(keys: set<string>)
    | UnexpectedKeys(keys: set<string>)
    | EmailsFormat(key: string, value: string)
    | NoSuchStream(stream: string)

  /** `f"'{item!s}'"` */
  function Quote(item: string): string
  {
    "'" + item + "'"
  }

  function QuoteAll(items: seq<string>): (r: seq<string>)
    ensures |r| == |items|
    ensures forall i :: 0 <= i < |items| ==> r[i] == Quote(items[i])
  {
    if items == [] then [] else [Quote(items[0])] + QuoteAll(items[1..])
  }

  /** `_humanize_iterable(items, conjunction)`: the items sorted, each in single quotes,
      listed with commas and the conjunction before the last one. */
  function Humanize(items: set<string>, conjunction: string): (r: string)
    ensures r == "" <==> items == {}
  {
    if items == {} then ""
    else
      var sorted := SortedElements(items);
      assert sorted[0] in items;
      ListPhrase(QuoteAll(sorted), conjunction)
  }

  /** The joining step of `_humanize_iterable` on the already quoted, sorted items. */
  function ListPhrase(quoted: seq<string>, conjunction: string): (r: string)
    requires quoted != []
    ensures |quoted| == 1 ==> r == quoted[0]
  {
    if |quoted| == 1 then quoted[0]
    else
      var humanized := Join(", ", quoted[..|quoted| - 1]);
      var humanized := if |quoted| > 2 then humanized + "," else humanized;
      humanized + " " + conjunction + " " + quoted[|quoted| - 1]
  }

  /** One item: just that item in single quotes. */
  lemma HumanizeOne(a: string, conjunction: string)
    ensures Humanize({a}, conjunction) == Quote(a)
  {
    assert SortedElements({a}) == [a] by {
      assert forall x :: x in [a] <==> x in {a};
      AscendingIsSorted([a], {a});
    }
  }

  /** Two items: the smaller, the conjunction, the larger, and no comma. */
  lemma HumanizeTwo(a: string, b: string, conjunction: string)
    requires Below(a, b) && a != b
    ensures Humanize({a, b}, conjunction) == Quote(a) + " " + conjunction + " " + Quote(b)
  {
    var s := [a, b];
    assert forall x :: x in s <==> x in {a, b};
    AscendingIsSorted(s, {a, b});
    assert QuoteAll(s)[..1] == [Quote(a)];
  }

  /** Three or more items: the quoted items in ascending order joined by ", ", the
      last one preceded by the conjunction (the serial comma). */
  lemma HumanizeSerialComma(items: set<string>, conjunction: string)
    requires |items| >= 3
    ensures Humanize(items, conjunction) == SerialList(QuoteAll(SortedElements(items)), conjunction)
  {
    HumanizeIsListPhrase(items, conjunction);
    ListPhraseSerialComma(QuoteAll(SortedElements(items)), conjunction);
  }

  lemma HumanizeIsListPhrase(items: set<string>, conjunction: string)
    requires items != {}
    ensures QuoteAll(SortedElements(items)) != []
    ensures Humanize(items, conjunction) == ListPhrase(QuoteAll(SortedElements(items)), conjunction)
  {
  }

  /** The serial-comma list: every item separated by ", ", the conjunction in front
      of the last one. */
  function SerialList(quoted: seq<string>, conjunction: string): string
    requires |quoted| >= 2
  {
    Join(", ", quoted[..|quoted| - 1] + [conjunction + " " + quoted[|quoted| - 1]])
  }

  lemma ListPhraseSerialComma(quoted: seq<string>, conjunction: string)
    requires |quoted| >= 3
    ensures ListPhrase(quoted, conjunction) == SerialList(quoted, conjunction)
  {
    var n := |quoted|;
    var init := Join(", ", quoted[..n - 1]);
    var tail := conjunction + " " + quoted[n - 1];
    assert ListPhrase(quoted, conjunction) == init + "," + " " + tail;
    JoinSnoc(", ", quoted[..n - 1], tail);
    assert init + "," + " " + tail == init + ", " + tail;
  }

  /** `"key is"` for one key, `"keys are"` for more. */
  function Phrase(keys: set<string>): (r: string)
    ensures |keys| > 1 ==> r == "keys are"
    ensures |keys| <= 1 ==> r == "key is"
  {
    if |keys| > 1 then "keys are" else "key is"
  }

  /** Python's `repr` of a `str`: double quotes when the text holds a single quote and
      no double quote, single quotes otherwise; backslash, the chosen quote and the
      ASCII control characters escaped. */
  function Repr(s: string): string
  {
    var q := if '\'' in s && '"' !in s then '"' else '\'';
    [q] + Escape(s, q) + [q]
  }

  function Escape(s: string, q: char): string
  {
    if s == [] then "" else EscapeChar(s[0], q) + Escape(s[1..], q)
  }

  function EscapeChar(c: char, q: char): string
  {
    if c == '\\' then "\\\\"
    else if c == q then ['\\', q]
    else if c == '\t' then "\\t"
    else if c == '\n' then "\\n"
    else if c == '\r' then "\\r"
    else if c < ' ' || c as int == 0x7F then "\\x" + [HexDigit(c as int / 16), HexDigit(c as int % 16)]
    else [c]
  }

  function HexDigit(d: nat): char
    requires d < 16
  {
    "0123456789abcdef"[d]
  }

  /** Printable ASCII text without quotes or backslashes: `repr` only adds single quotes. */
  predicate Plain(s: string)
  {
    forall i :: 0 <= i < |s| ==> ' ' <= s[i] <= '~' && s[i] != '\'' && s[i] != '"' && s[i] != '\\'
  }

  lemma {:induction false} EscapePlain(s: string, q: char)
    requires Plain(s) && (q == '\'' || q == '"')
    ensures Escape(s, q) == s
    decreases |s|
  {
    if s != [] {
      assert Plain(s[1..]) by {
        forall i | 0 <= i < |s[1..]| ensures s[1..][i] == s[i + 1] { }
      }
      EscapePlain(s[1..], q);
      assert s == [s[0]] + s[1..];
    }
  }

  lemma ReprPlain(s: string)
    requires Plain(s)
    ensures Repr(s) == "'" + s + "'"
  {
    assert '\'' !in s;
    EscapePlain(s, '\'');
  }

  /** `InvalidConfigError`'s text: the file's path, then the detail. */
  function InvalidConfigMessage(path: string, message: string): string
  {
    "Error processing config file '" + path + "': " + message
  }

  /** `str(error)` for each configuration error. */
  function Message(e: ConfigError): string
  {
    match e
    case InvalidStreamConfig(path, stream, message) =>
      InvalidConfigMessage(path, "improper configuration detected for stream " + Repr(stream) + ": " + message)
    case NoSuchConfigurationFile(path) =>
      InvalidConfigMessage(path, "no such file exists")
    case ConfigFileParsing(path, parserMessage) =>
      InvalidConfigMessage(path, parserMessage)
    case MissingKeys(keys) =>
      "the following " + Phrase(keys) + " missing: " + Humanize(keys, "and")
    case UnexpectedKeys(keys) =>
      "the following " + Phrase(keys) + " unexpected: " + Humanize(keys, "and")
    case EmailsFormat(key, value) =>
      "invalid '" + key + "': " + value + ". It should be a list with quoted items, e.g. [\"email@example.com\"]"
    case NoSuchStream(stream) =>
      "Stream with name " + Repr(stream) + " does not exist"
  }

  /** The message of an error met while loading one stream's section, as the loader
      reports it: path, stream name in single quotes, then the section's own error text. */
  lemma InvalidStreamConfigText(path: string, stream: string, detail: string)
    requires Plain(stream)
    ensures Message(InvalidStreamConfig(path, stream, detail))
      == InvalidConfigMessage(path, "improper configuration detected for stream " + Quote(stream) + ": " + detail)
  {
    ReprPlain(stream);
  }

  /** The text of a missing-keys or unexpected-keys error: the phrase, then the
      humanised list. */
  lemma KeyListText(keys: set<string>, phrase: string, list: string)
    requires Phrase(keys) == phrase && Humanize(keys, "and") == list
    ensures Message(MissingKeys(keys)) == "the following " + phrase + " missing: " + list
    ensures Message(UnexpectedKeys(keys)) == "the following " + phrase + " unexpected: " + list
  {
  }

  lemma SingularMissingLead(list: string)
    ensures "the following " + "key is" + " missing: " + list == "the following key is missing: " + list
  {
  }

  lemma SingularUnexpectedLead(list: string)
    ensures "the following " + "key is" + " unexpected: " + list == "the following key is unexpected: " + list
  {
  }

  lemma PluralMissingLead(list: string)
    ensures "the following " + "keys are" + " missing: " + list == "the following keys are missing: " + list
  {
  }

  lemma PluralUnexpectedLead(list: string)
    ensures "the following " + "keys are" + " unexpected: " + list == "the following keys are unexpected: " + list
  {
  }

  lemma AppendAssoc(a: string, b: string, c: string)
    ensures a + b + c == a + (b + c)
  {
  }

  lemma AndBetween(x: string, y: string)
    ensures x + " " + "and" + " " + y == x + " and " + y
  {
    assert " " + "and" + " " == " and ";
    AppendAssoc(x, " ", "and");
    AppendAssoc(x, " " + "and", " ");
    AppendAssoc(x, " " + "and" + " ", y);
    AppendAssoc(x, " and ", y);
  }

  /** One key: the singular phrase and the key alone in single quotes. */
  lemma OneKeyText(a: string)
    ensures Message(MissingKeys({a})) == "the following key is missing: " + Quote(a)
    ensures Message(UnexpectedKeys({a})) == "the following key is unexpected: " + Quote(a)
  {
    HumanizeOne(a, "and");
    KeyListText({a}, "key is", Quote(a));
    SingularMissingLead(Quote(a));
    SingularUnexpectedLead(Quote(a));
  }

  /** Two keys: the plural phrase, ascending order, "and" and no comma. */
  lemma TwoKeysText(a: string, b: string)
    requires Below(a, b) && a != b
    ensures Message(MissingKeys({a, b})) == "the following keys are missing: " + (Quote(a) + " and " + Quote(b))
    ensures Message(UnexpectedKeys({a, b})) == "the following keys are unexpected: " + (Quote(a) + " and " + Quote(b))
  {
    HumanizeTwo(a, b, "and");
    assert |{a, b}| == 2;
    AndBetween(Quote(a), Quote(b));
    PluralText({a, b}, Quote(a) + " and " + Quote(b));
  }

  /** Three keys or more: the plural phrase, ascending order, serial comma. */
  lemma ManyKeysText(keys: set<string>)
    requires |keys| >= 3
    ensures Message(MissingKeys(keys))
              == "the following keys are missing: " + SerialList(QuoteAll(SortedElements(keys)), "and")
    ensures Message(UnexpectedKeys(keys))
              == "the following keys are unexpected: " + SerialList(QuoteAll(SortedElements(keys)), "and")
  {
    HumanizeSerialComma(keys, "and");
    PluralText(keys, SerialList(QuoteAll(SortedElements(keys)), "and"));
  }

  lemma PluralText(keys: set<string>, list: string)
    requires |keys| > 1 && Humanize(keys, "and") == list
    ensures Message(MissingKeys(keys)) == "the following keys are missing: " + list
    ensures Message(UnexpectedKeys(keys)) == "the following keys are unexpected: " + list
  {
    KeyListText(keys, "keys are", list);
    PluralMissingLead(list);
    PluralUnexpectedLead(list);
  }

  /** The order in which the six SMTP keys are listed when all of them are missing. */
  lemma SmtpKeysOrder(keys: set<string>, sorted: seq<string>)
    requires keys == {"smtp_server", "smtp_server_port", "smtp_login", "smtp_password", "from_email", "to_emails"}
    requires sorted == ["from_email", "smtp_login", "smtp_password", "smtp_server", "smtp_server_port", "to_emails"]
    ensures SortedElements(keys) == sorted
  {
    SmtpKeysMembers(keys, sorted);
    SmtpKeysAscending();
    AscendingIsSorted(sorted, keys);
  }

  lemma SmtpKeysAscending()
    ensures Ascending(["from_email", "smtp_login", "smtp_password", "smtp_server", "smtp_server_port", "to_emails"])
  {
    FirstLetterBefore("from_email", "smtp_login");
    SmtpLoginBeforePassword();
    SmtpPasswordBeforeServer();
    SmtpServerBeforePort();
    FirstLetterBefore("smtp_server_port", "to_emails");
    SixAscending("from_email", "smtp_login", "smtp_password", "smtp_server", "smtp_server_port", "to_emails");
  }

  lemma FirstLetterBefore(a: string, b: string)
    requires a != [] && b != [] && a[0] < b[0]
    ensures Below(a, b) && a != b
  {
  }

  lemma SmtpLoginBeforePassword()
    ensures Below("smtp_login", "smtp_password") && "smtp_login" != "smtp_password"
  {
    BeforeAt("smtp_login", "smtp_password", 5);
  }

  lemma SmtpPasswordBeforeServer()
    ensures Below("smtp_password", "smtp_server") && "smtp_password" != "smtp_server"
  {
    BeforeAt("smtp_password", "smtp_server", 5);
  }

  lemma SmtpServerBeforePort()
    ensures Below("smtp_server", "smtp_server_port") && "smtp_server" != "smtp_server_port"
  {
    BeforeAt("smtp_server", "smtp_server_port", 11);
  }

  lemma SixAscending(a: string, b: string, c: string, d: string, e: string, f: string)
    requires Below(a, b) && a != b && Below(b, c) && b != c && Below(c, d) && c != d
    requires Below(d, e) && d != e && Below(e, f) && e != f
    ensures Ascending([a, b, c, d, e, f])
  {
    var s := [a, b, c, d, e, f];
    forall i | 0 <= i < |s| - 1
      ensures Below(s[i], s[i + 1]) && s[i] != s[i + 1]
    {
    }
    AscendingFromAdjacent(s);
  }

  lemma SmtpKeysMembers(keys: set<string>, sorted: seq<string>)
    requires keys == {"smtp_server", "smtp_server_port", "smtp_login", "smtp_password", "from_email", "to_emails"}
    requires sorted == ["from_email", "smtp_login", "smtp_password", "smtp_server", "smtp_server_port", "to_emails"]
    ensures forall x :: x in sorted <==> x in keys
  {
  }

  lemma NoSuchStreamText(stream: string)
    requires Plain(stream)
    ensures Message(NoSuchStream(stream)) == "Stream with name " + Quote(stream) + " does not exist"
  {
    ReprPlain(stream);
  }
}
