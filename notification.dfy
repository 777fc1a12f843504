/**
 * The alert fan-out of the log monitor: the rate limiter that spaces alerts
 * out, the e-mail headers and colour table, the Slack webhook payload, and
 * the manager that gates one detected error and hands it to the e-mail and
 * Slack channels in turn.
 *
 * Time is whole seconds passed in by the caller. The SMTP and webhook
 * transports are the function parameters `emailSink` and `slackSink`: each
 * says whether handing over the message succeeded, which is what the source's
 * `send_alert` methods return after catching every exception.
 */
module Notification {
  import opened Wrappers
  import opened Text
  import opened Config
  import opened Extraction

  // ---------------------------------------------------------------------------
  // rate limiting

  /** The gate lets a notification through at `now` when `minInterval` seconds have passed since `last`. */
  predicate Grants(last: int, minInterval: int, now: int) {
    now - last >= minInterval
  }

  /**
   * The gate's answers to calls at `times`, starting from the last-notification
   * time `last`: a granted call moves that time to its own, a denied call
   * leaves it where it was.
   */
  function Decisions(last: int, minInterval: int, times: seq<int>): (r: seq<bool>)
    ensures |r| == |times|
    decreases |times|
  {
    if times == [] then []
    else
      var granted := Grants(last, minInterval, times[0]);
      [granted] + Decisions(if granted then times[0] else last, minInterval, times[1..])
  }

  /** Every call less than `minInterval` after the last notification is denied, however many there are. */
  lemma {:induction false} DeniedWithinInterval(last: int, minInterval: int, times: seq<int>)
    requires forall k | 0 <= k < |times| :: times[k] - last < minInterval
    decreases |times|
    ensures forall k | 0 <= k < |times| :: !Decisions(last, minInterval, times)[k]
  {
    if times != [] {
      DeniedWithinInterval(last, minInterval, times[1..]);
      var d := Decisions(last, minInterval, times);
      assert d == [false] + Decisions(last, minInterval, times[1..]);
    }
  }

  /** A granted call comes at least `minInterval` after the last notification before the calls began. */
  lemma {:induction false} GrantedAfterLast(last: int, minInterval: int, times: seq<int>, j: nat)
    requires 0 <= minInterval
    requires j < |times| && Decisions(last, minInterval, times)[j]
    decreases |times|
    ensures times[j] - last >= minInterval
  {
    var granted := Grants(last, minInterval, times[0]);
    var next := if granted then times[0] else last;
    assert Decisions(last, minInterval, times) == [granted] + Decisions(next, minInterval, times[1..]);
    if j > 0 {
      GrantedAfterLast(next, minInterval, times[1..], j - 1);
    }
  }

  /**
   * Any two granted calls are at least `minInterval` apart: after a grant at
   * `t`, no call before `t + minInterval` gets through.
   */
  lemma {:induction false} GrantsAreSpaced(last: int, minInterval: int, times: seq<int>, i: nat, j: nat)
    requires 0 <= minInterval
    requires i < j < |times|
    requires Decisions(last, minInterval, times)[i] && Decisions(last, minInterval, times)[j]
    decreases |times|
    ensures times[j] - times[i] >= minInterval
  {
    var granted := Grants(last, minInterval, times[0]);
    var next := if granted then times[0] else last;
    assert Decisions(last, minInterval, times) == [granted] + Decisions(next, minInterval, times[1..]);
    if i == 0 {
      GrantedAfterLast(times[0], minInterval, times[1..], j - 1);
    } else {
      GrantsAreSpaced(next, minInterval, times[1..], i - 1, j - 1);
    }
  }

  /**
   * With no minimum interval, every call on a clock that never runs
   * backwards is granted.
   */
  lemma {:induction false} NoIntervalGrantsAll(last: int, minInterval: int, times: seq<int>)
    requires minInterval <= 0
    requires times != [] ==> last <= times[0]
    requires forall k | 0 < k < |times| :: times[k - 1] <= times[k]
    ensures forall k | 0 <= k < |times| :: Decisions(last, minInterval, times)[k]
    decreases |times|
  {
    if times != [] {
      var rest := times[1..];
      assert rest != [] ==> times[0] <= rest[0] by {
        if rest != [] { assert times[1 - 1] <= times[1]; }
      }
      forall k | 0 < k < |rest| ensures rest[k - 1] <= rest[k] {
        assert times[k + 1 - 1] <= times[k + 1];
      }
      NoIntervalGrantsAll(times[0], minInterval, rest);
      assert Decisions(last, minInterval, times) == [true] + Decisions(times[0], minInterval, rest);
    }
  }

  /** `RateLimiter`: the minimum spacing and the time of the last granted notification. */
  class RateLimiter {
    const minInterval: int
    var lastNotificationTime: int

    /** A new limiter has never granted, which the source writes as time 0. */
    constructor (minIntervalSeconds: int)
      ensures minInterval == minIntervalSeconds && lastNotificationTime == 0
    {
      minInterval := minIntervalSeconds;
      lastNotificationTime := 0;
    }

    /** `should_send_notification`: grant and record `now`, or deny and change nothing. */
    method ShouldSendNotification(now: int) returns (granted: bool)
      modifies this
      ensures [granted] == Decisions(old(lastNotificationTime), minInterval, [now])
      ensures granted <==> now - old(lastNotificationTime) >= minInterval
      ensures lastNotificationTime == if granted then now else old(lastNotificationTime)
    {
      var timeSinceLast := now - lastNotificationTime;
      if timeSinceLast >= minInterval {
        lastNotificationTime := now;
        return true;
      }
      return false;
    }

    /** `reset`: forget the last notification. */
    method Reset()
      modifies this
      ensures lastNotificationTime == 0
    {
      lastNotificationTime := 0;
    }
  }

  // ---------------------------------------------------------------------------
  // level tables

  /** The emoji and attachment colour a Slack alert uses for a level. */
  datatype SlackStyle = SlackStyle(emoji: string, color: string)

  const FireEmoji: string := "\U{1F525}"
  const SirenEmoji: string := "\U{1F6A8}"
  const SkullEmoji: string := "\U{1F480}"
  const WarningEmoji: string := "\U{26A0}\U{FE0F}"
  const LoudspeakerEmoji: string := "\U{1F4E2}"

  const SlackLevelTable: map<string, SlackStyle> := map[
    "CRITICAL" := SlackStyle(FireEmoji, "danger"),
    "ERROR" := SlackStyle(SirenEmoji, "danger"),
    "FATAL" := SlackStyle(SkullEmoji, "danger"),
    "EXCEPTION" := SlackStyle(WarningEmoji, "warning"),
    "WARNING" := SlackStyle(WarningEmoji, "warning"),
    "WARN" := SlackStyle(WarningEmoji, "warning")]

  const DefaultSlackStyle: SlackStyle := SlackStyle(LoudspeakerEmoji, "good")

  /** The Slack style of a level: its table entry, or the loudspeaker and "good" for any other level. */
  function SlackLevelStyle(level: string): (r: SlackStyle)
    ensures r.color == "good" <==> level !in SlackLevelTable
    ensures r.color == "danger" <==> level in {"CRITICAL", "ERROR", "FATAL"}
  {
    if level in SlackLevelTable then SlackLevelTable[level] else DefaultSlackStyle
  }

  const HtmlColorTable: map<string, string> := map[
    "CRITICAL" := "#dc3545",
    "ERROR" := "#fd7e14",
    "FATAL" := "#dc3545",
    "EXCEPTION" := "#fd7e14",
    "WARNING" := "#ffc107",
    "WARN" := "#ffc107"]

  const DefaultHtmlColor: string := "#6c757d"

  /** The accent colour of the HTML e-mail body: its table entry, or grey for any other level. */
  function HtmlLevelColor(level: string): (r: string)
    ensures r == DefaultHtmlColor <==> level !in HtmlColorTable
    ensures r == "#dc3545" <==> level in {"CRITICAL", "FATAL"}
  {
    if level in HtmlColorTable then HtmlColorTable[level] else DefaultHtmlColor
  }

  /** Both tables style the same levels, so a level falls back to the default on Slack exactly when it does in e-mail. */
  lemma TablesCoverSameLevels(level: string)
    ensures SlackLevelStyle(level) == DefaultSlackStyle <==> HtmlLevelColor(level) == DefaultHtmlColor
  {
    assert SlackLevelTable.Keys == HtmlColorTable.Keys;
  }

  /**
   * Of the levels the extractor can produce, exactly FAIL and UNKNOWN are
   * missing from the tables, so only those alerts get the default styles.
   */
  lemma ExtractedLevelStyles(line: string)
    ensures var level := ExtractLevel(line);
      SlackLevelStyle(level) == DefaultSlackStyle <==> level == "FAIL" || level == UnknownLevel
  {
    LevelClassification(line);
    var level := ExtractLevel(line);
    assert level in SevereLevels || level in WarningLevels || level == UnknownLevel;
  }

  // ---------------------------------------------------------------------------
  // e-mail headers

  const SubjectPrefix: string := SirenEmoji + " Log Alert: "
  const SubjectSuffix: string := " Detected"

  /** The subject line of an alert e-mail. */
  function EmailSubject(level: string): string {
    SubjectPrefix + level + SubjectSuffix
  }

  /** The level a subject line names, when it has the alert shape. */
  function SubjectLevel(subject: string): Option<string> {
    var p, q := |SubjectPrefix|, |SubjectSuffix|;
    if |subject| >= p + q && subject[..p] == SubjectPrefix && subject[|subject| - q..] == SubjectSuffix
    then Some(subject[p..|subject| - q])
    else None
  }

  /** The subject names the alert's level, and it can be read back out. */
  lemma SubjectNamesLevel(level: string)
    ensures SubjectLevel(EmailSubject(level)) == Some(level)
  {
    var s := EmailSubject(level);
    var p, q := |SubjectPrefix|, |SubjectSuffix|;
    assert s[..p] == SubjectPrefix;
    assert s[|s| - q..] == SubjectSuffix;
    assert s[p..|s| - q] == level;
  }

  /** Characters that make `formataddr` put the display name in double quotes. */
  const AddressSpecials: set<char> := {'(', ')', '<', '>', '[', ']', ':', ';', '@', '\\', ',', '.', '"'}

  /** A backslash before every backslash and double quote of a display name. */
  function EscapeName(name: string): (r: string)
    ensures |r| >= |name|
  {
    if name == [] then []
    else if name[0] == '\\' || name[0] == '"' then ['\\', name[0]] + EscapeName(name[1..])
    else [name[0]] + EscapeName(name[1..])
  }

  /** Undoes the escaping: a backslash stands for the character after it. */
  function UnescapeName(s: string): string {
    if s == [] then []
    else if s[0] == '\\' && |s| >= 2 then [s[1]] + UnescapeName(s[2..])
    else [s[0]] + UnescapeName(s[1..])
  }

  /** Escaping loses nothing: the display name can be recovered from the header. */
  lemma {:induction false} UnescapeEscapeName(name: string)
    ensures UnescapeName(EscapeName(name)) == name
  {
    if name != [] {
      UnescapeEscapeName(name[1..]);
      var e := EscapeName(name);
      if name[0] == '\\' || name[0] == '"' {
        assert e == ['\\', name[0]] + EscapeName(name[1..]);
        assert e[2..] == EscapeName(name[1..]);
      } else {
        assert e == [name[0]] + EscapeName(name[1..]);
        assert e[1..] == EscapeName(name[1..]);
      }
    }
  }

  /** A name without backslashes or double quotes is left as it is. */
  lemma {:induction false} EscapePlainName(name: string)
    requires '\\' !in name && '"' !in name
    ensures EscapeName(name) == name
  {
    if name != [] {
      assert name[0] in name;
      assert forall c | c in name[1..] :: c in name;
      EscapePlainName(name[1..]);
    }
  }

  /** Whether `formataddr` must quote the display name. */
  predicate HasSpecial(name: string) {
    exists c | c in name :: c in AddressSpecials
  }

  /** `formataddr((name, address))` for an ASCII name: the address alone, or the name and the address in angle brackets. */
  function FormatAddr(name: string, address: string): (r: string)
    ensures name == [] ==> r == address
    ensures name != [] ==> |r| >= |address| + 3 && r[|r| - 1] == '>' && r[|r| - 1 - |address|..|r| - 1] == address
  {
    if name == [] then address
    else
      var quote := if HasSpecial(name) then "\"" else "";
      var shown := quote + EscapeName(name) + quote + " <";
      var r := shown + address + ">";
      assert r[|r| - 1 - |address|..|r| - 1] == address;
      r
  }

  /** A display name holding a special character is quoted, with backslashes and quotes escaped. */
  lemma SpecialNameQuoted(name: string, address: string, c: char)
    requires c in name && c in AddressSpecials
    ensures FormatAddr(name, address) == "\"" + EscapeName(name) + "\"" + " <" + address + ">"
  {
    assert HasSpecial(name);
  }

  /** A display name with none of the special characters appears verbatim, unquoted. */
  lemma PlainNameVerbatim(name: string, address: string)
    requires name != [] && forall c | c in name :: c !in AddressSpecials
    ensures FormatAddr(name, address) == name + " <" + address + ">"
  {
    EscapePlainName(name);
  }

  /**
   * The recipients as the e-mail notifier reads them: the option split on
   * commas and each piece trimmed, keeping empty pieces.
   */
  function NotifierRecipients(raw: string): (r: seq<string>)
    ensures |r| == CountChar(raw, ',') + 1
    ensures forall k | 0 <= k < |r| :: IsStripped(r[k]) && ',' !in r[k]
  {
    var pieces := Split(raw, ',');
    var r := seq(|pieces|, k requires 0 <= k < |pieces| => Strip(pieces[k]));
    assert forall k | 0 <= k < |r| :: ',' !in r[k] by {
      forall k | 0 <= k < |r| ensures ',' !in r[k] {
        assert pieces[k] in pieces;
        StripKeepsAbsent(pieces[k], ',');
      }
    }
    r
  }

  /**
   * Trimmed, comma-free addresses written as one comma-separated option come
   * back from the notifier one for one, in order; empty ones included.
   */
  lemma NotifierRecipientsOfJoin(rs: seq<string>)
    requires rs != []
    requires forall e | e in rs :: IsStripped(e) && ',' !in e
    ensures NotifierRecipients(Join(rs, ",")) == rs
  {
    var raw := Join(rs, ",");
    SplitJoin(rs, ',');
    var pieces := Split(raw, ',');
    assert pieces == rs;
    NotifierRecipientsPieces(raw);
    var r := NotifierRecipients(raw);
    assert |r| == |rs|;
    forall k | 0 <= k < |rs| ensures r[k] == rs[k] {
      StripCleanPiece(rs, k);
    }
  }

  /** A clean piece is its own trimmed form. */
  lemma StripCleanPiece(rs: seq<string>, k: nat)
    requires k < |rs|
    requires forall e | e in rs :: IsStripped(e) && ',' !in e
    ensures StripChars(rs[k], Whitespace) == rs[k]
  {
    assert rs[k] in rs;
    StripCharsOfClean(rs[k], Whitespace);
  }

  /** Each recipient is the trimmed piece at the same position. */
  lemma NotifierRecipientsPieces(raw: string)
    ensures |NotifierRecipients(raw)| == |Split(raw, ',')|
    ensures forall k | 0 <= k < |Split(raw, ',')| ::
      NotifierRecipients(raw)[k] == StripChars(Split(raw, ',')[k], Whitespace)
  {
  }

  /** The `To` header. */
  function ToHeader(recipients: seq<string>): string {
    Join(recipients, ", ")
  }

  /** Clean recipient addresses can be read back from the `To` header as the comma list they form. */
  lemma ToHeaderListsRecipients(recipients: seq<string>)
    requires forall e | e in recipients :: IsCleanItem(e)
    ensures CommaList(ToHeader(recipients)) == recipients
  {
    CommaListJoin(recipients);
  }

  /** A configured e-mail channel: `EmailNotifier`'s settings. */
  datatype EmailChannel = EmailChannel(
    smtpServer: string,
    smtpPort: int,
    senderEmail: string,
    senderPassword: Option<string>,
    recipients: seq<string>,
    senderName: string)

  /** An alert e-mail: its three headers, the accent colour of its HTML body and the record both bodies render. */
  datatype EmailMessage = EmailMessage(subject: string, from: string, to: string, color: string, alert: ErrorRecord)

  /** `_create_email_message` without the rendered bodies. */
  function CreateEmailMessage(ch: EmailChannel, info: ErrorRecord): (m: EmailMessage)
    ensures SubjectLevel(m.subject) == Some(info.level)
    ensures m.color == DefaultHtmlColor <==> info.level !in HtmlColorTable
    ensures m.color == HtmlLevelColor(info.level)
    ensures m.from == FormatAddr(ch.senderName, ch.senderEmail)
    ensures m.to == ToHeader(ch.recipients)
    ensures m.alert == info
  {
    SubjectNamesLevel(info.level);
    EmailMessage(
      EmailSubject(info.level),
      FormatAddr(ch.senderName, ch.senderEmail),
      ToHeader(ch.recipients),
      HtmlLevelColor(info.level),
      info)
  }

  // ---------------------------------------------------------------------------
  // Slack payload

  datatype SlackField = SlackField(title: string, value: string, short: bool)

  datatype Attachment = Attachment(
    color: string,
    title: string,
    fields: seq<SlackField>,
    footer: string,
    footerIcon: string,
    ts: int)

  datatype SlackPayload = SlackPayload(
    channel: string,
    username: string,
    iconEmoji: string,
    text: string,
    attachments: seq<Attachment>)

  /** A configured Slack channel: `SlackNotifier`'s settings. */
  datatype SlackChannel = SlackChannel(webhookUrl: string, channel: string, username: string)

  const TitleLimit: nat := 100

  /** `s[:n]`. */
  function Truncated(s: string, n: nat): (r: string)
    ensures |r| == if |s| <= n then |s| else n
    ensures r == s[..|r|]
  {
    if |s| <= n then s else s[..n]
  }

  /**
   * The attachment title: the level, a colon, at most the first 100
   * characters of the message, and an ellipsis whether or not anything was cut.
   */
  function AlertTitle(level: string, message: string): (r: string)
    ensures |r| == |level| + 2 + (if |message| <= TitleLimit then |message| else TitleLimit) + 3
    ensures r[..|level|] == level && r[|level|..|level| + 2] == ": " && r[|r| - 3..] == "..."
    ensures r[|level| + 2..|r| - 3] == message[..|r| - |level| - 5]
    ensures |message| <= TitleLimit ==> r[|level| + 2..|r| - 3] == message
  {
    var cut := Truncated(message, TitleLimit);
    var r := level + ": " + cut + "...";
    assert r[|level| + 2..|r| - 3] == cut;
    r
  }

  /** Text in a Slack code block. */
  function Fence(s: string): string {
    "```" + s + "```"
  }

  /** The text inside a code block, when `s` is one. */
  function Unfence(s: string): Option<string> {
    if |s| >= 6 && s[..3] == "```" && s[|s| - 3..] == "```" then Some(s[3..|s| - 3]) else None
  }

  lemma UnfenceFence(s: string)
    ensures Unfence(Fence(s)) == Some(s)
  {
    var f := Fence(s);
    assert f[..3] == "```" && f[|f| - 3..] == "```" && f[3..|f| - 3] == s;
  }

  /** The field titles, in order. */
  function Titles(fields: seq<SlackField>): seq<string> {
    seq(|fields|, k requires 0 <= k < |fields| => fields[k].title)
  }

  const BaseTitles: seq<string> := ["Timestamp", "Level", "Matched Keyword", "Detection Time", "Error Message"]

  /**
   * The attachment fields: timestamp, level, matched keyword, detection time
   * and the message, then the whole line only when it differs from the message.
   */
  function AlertFields(info: ErrorRecord): (r: seq<SlackField>)
    ensures Titles(r) == BaseTitles + (if info.line != info.message then ["Full Log Line"] else [])
    ensures forall k | 0 <= k < |r| :: r[k].short <==> k < 4
  {
    var base := [
      SlackField("Timestamp", info.timestamp, true),
      SlackField("Level", info.level, true),
      SlackField("Matched Keyword", info.matchedKeyword, true),
      SlackField("Detection Time", info.detectedAt, true),
      SlackField("Error Message", Fence(info.message), false)];
    if info.line != info.message then base + [SlackField("Full Log Line", Fence(info.line), false)] else base
  }

  const FooterText: string := "Log Monitor Demo"
  const FooterIcon: string := "https://cdn-icons-png.flaticon.com/512/2919/2919906.png"
  const IconEmoji: string := ":warning:"

  /** The headline: the level's emoji, the bold product name and the level. */
  function AlertText(level: string): (r: string)
    ensures |r| == |SlackLevelStyle(level).emoji| + |level| + 31
    ensures r[..|SlackLevelStyle(level).emoji|] == SlackLevelStyle(level).emoji
    ensures r[|r| - |level| - 9..|r| - 9] == level && r[|r| - 9..] == " detected"
  {
    var emoji := SlackLevelStyle(level).emoji;
    var r := emoji + " *Log Monitor Alert*: " + level + " detected";
    assert r[|r| - |level| - 9..|r| - 9] == level;
    r
  }

  /** `_create_slack_payload`, with `now` standing for the clock reading stored in `ts`. */
  function CreateSlackPayload(ch: SlackChannel, info: ErrorRecord, now: int): (r: SlackPayload)
    ensures |r.attachments| == 1
    ensures r.attachments[0].color == SlackLevelStyle(info.level).color && r.attachments[0].ts == now
    ensures r.channel == ch.channel && r.username == ch.username && r.iconEmoji == IconEmoji
    ensures r.text == AlertText(info.level)
    ensures r.attachments[0].title == AlertTitle(info.level, info.message)
    ensures r.attachments[0].fields == AlertFields(info)
    ensures r.attachments[0].footer == FooterText && r.attachments[0].footerIcon == FooterIcon
  {
    var attachment := Attachment(
      SlackLevelStyle(info.level).color,
      AlertTitle(info.level, info.message),
      AlertFields(info),
      FooterText,
      FooterIcon,
      now);
    SlackPayload(ch.channel, ch.username, IconEmoji, AlertText(info.level), [attachment])
  }

  /** The value of the first field with `title`. */
  function FieldValue(fields: seq<SlackField>, title: string): Option<string> {
    if fields == [] then None
    else if fields[0].title == title then Some(fields[0].value)
    else FieldValue(fields[1..], title)
  }

  /** A lookup finds the first field with the title. */
  lemma {:induction false} FieldValueFirst(fields: seq<SlackField>, title: string, k: nat)
    requires k < |fields| && fields[k].title == title
    requires forall j | 0 <= j < k :: fields[j].title != title
    ensures FieldValue(fields, title) == Some(fields[k].value)
  {
    if k > 0 {
      FieldValueFirst(fields[1..], title, k - 1);
    }
  }

  /** A lookup of a title no field has finds nothing. */
  lemma {:induction false} FieldValueAbsent(fields: seq<SlackField>, title: string)
    requires forall j | 0 <= j < |fields| :: fields[j].title != title
    ensures FieldValue(fields, title) == None
  {
    if fields != [] {
      FieldValueAbsent(fields[1..], title);
    }
  }

  /**
   * What a reader of the Slack message learns: the record spelled out by the
   * attachment's fields, taking the message as the line when no full line is shown.
   */
  function AlertFromPayload(p: SlackPayload): Option<ErrorRecord> {
    if |p.attachments| != 1 then None
    else
      var fs := p.attachments[0].fields;
      match (FieldValue(fs, "Timestamp"), FieldValue(fs, "Level"), FieldValue(fs, "Matched Keyword"),
             FieldValue(fs, "Detection Time"), FieldValue(fs, "Error Message"))
      case (Some(ts), Some(level), Some(keyword), Some(at), Some(fenced)) =>
        (match Unfence(fenced)
         case None => None
         case Some(message) =>
           (match FieldValue(fs, "Full Log Line")
            case None => Some(ErrorRecord(ts, level, message, message, keyword, at))
            case Some(fencedLine) =>
              (match Unfence(fencedLine)
               case None => None
               case Some(line) => Some(ErrorRecord(ts, level, message, line, keyword, at)))))
      case _ => None
  }

  /** The Slack message shows every part of the record: the record can be read back from it. */
  lemma SlackPayloadRoundTrip(ch: SlackChannel, info: ErrorRecord, now: int)
    ensures AlertFromPayload(CreateSlackPayload(ch, info, now)) == Some(info)
  {
    var fs := AlertFields(info);
    UnfenceFence(info.message);
    UnfenceFence(info.line);
    var titles := Titles(fs);
    assert titles[..5] == BaseTitles;
    FieldValueFirst(fs, "Timestamp", 0);
    FieldValueFirst(fs, "Level", 1);
    FieldValueFirst(fs, "Matched Keyword", 2);
    FieldValueFirst(fs, "Detection Time", 3);
    FieldValueFirst(fs, "Error Message", 4);
    if info.line != info.message {
      FieldValueFirst(fs, "Full Log Line", 5);
    } else {
      FieldValueAbsent(fs, "Full Log Line");
    }
  }

  // ---------------------------------------------------------------------------
  // channel selection

  /**
   * The e-mail channel `NotificationManager.__init__` sets up: only with an
   * `email` section and a non-empty sender address, and only when the
   * notifier's construction does not fail. It fails when `smtp_port` is not
   * an integer or `recipient_emails` is missing.
   */
  function EmailChannelOf(cfg: Config): (r: Option<EmailChannel>)
    ensures r.Some? <==> && "email" in cfg && IsSet(Get(cfg, "email", "sender_email"))
                         && GetInt(cfg, "email", "smtp_port", 587).Ok?
                         && "recipient_emails" in cfg["email"]
    ensures r.Some? ==>
      && r.value.senderEmail == cfg["email"]["sender_email"]
      && r.value.senderPassword == Get(cfg, "email", "sender_password")
      && r.value.recipients == NotifierRecipients(cfg["email"]["recipient_emails"])
      && ("smtp_server" !in cfg["email"] ==> r.value.smtpServer == "smtp.gmail.com")
      && ("smtp_server" in cfg["email"] ==> r.value.smtpServer == cfg["email"]["smtp_server"])
      && ("smtp_port" !in cfg["email"] ==> r.value.smtpPort == 587)
      && ("smtp_port" in cfg["email"] ==> ParseInt(cfg["email"]["smtp_port"]) == Some(r.value.smtpPort))
      && ("sender_name" !in cfg["email"] ==> r.value.senderName == "Log Monitor")
      && ("sender_name" in cfg["email"] ==> r.value.senderName == cfg["email"]["sender_name"])
  {
    if !(HasSection(cfg, "email") && IsSet(Get(cfg, "email", "sender_email"))) then None
    else
      match GetInt(cfg, "email", "smtp_port", 587)
      case Err(_) => None
      case Ok(port) =>
        match Get(cfg, "email", "recipient_emails")
        case None => None
        case Some(raw) =>
          Some(EmailChannel(
            GetOr(cfg, "email", "smtp_server", "smtp.gmail.com"),
            port,
            Get(cfg, "email", "sender_email").value,
            Get(cfg, "email", "sender_password"),
            NotifierRecipients(raw),
            GetOr(cfg, "email", "sender_name", "Log Monitor")))
  }

  /** The Slack channel `NotificationManager.__init__` sets up: with a `slack` section and a non-empty webhook URL. */
  function SlackChannelOf(cfg: Config): (r: Option<SlackChannel>)
    ensures r.Some? <==> "slack" in cfg && IsSet(Get(cfg, "slack", "webhook_url"))
    ensures r.Some? ==>
      && r.value.webhookUrl == cfg["slack"]["webhook_url"]
      && ("channel" !in cfg["slack"] ==> r.value.channel == "#alerts")
      && ("channel" in cfg["slack"] ==> r.value.channel == cfg["slack"]["channel"])
      && ("username" !in cfg["slack"] ==> r.value.username == "Log Monitor")
      && ("username" in cfg["slack"] ==> r.value.username == cfg["slack"]["username"])
  {
    if !(HasSection(cfg, "slack") && IsSet(Get(cfg, "slack", "webhook_url"))) then None
    else Some(SlackChannel(
      Get(cfg, "slack", "webhook_url").value,
      GetOr(cfg, "slack", "channel", "#alerts"),
      GetOr(cfg, "slack", "username", "Log Monitor")))
  }

  /** A configuration the validator accepts for e-mail gets an e-mail channel, unless its port is not a number. */
  lemma ConfiguredEmailHasChannel(cfg: Config)
    requires IsEmailConfigured(cfg) && GetInt(cfg, "email", "smtp_port", 587).Ok?
    ensures EmailChannelOf(cfg).Some?
  {
    assert "sender_email" in RequiredEmailFields && "recipient_emails" in RequiredEmailFields;
  }

  /** A configuration the validator accepts for Slack gets a Slack channel. */
  lemma ConfiguredSlackHasChannel(cfg: Config)
    requires IsSlackConfigured(cfg)
    ensures SlackChannelOf(cfg).Some?
  {
  }

  const PlaceholderConfig: Config := map["slack" := map["webhook_url" := SlackPlaceholderPrefix + "/WEBHOOK/URL"]]

  /**
   * The manager's test is weaker than the validator's: the shipped placeholder
   * webhook URL, which the validator rejects, still enables the Slack channel.
   */
  lemma PlaceholderWebhookEnablesSlack()
    ensures !IsSlackConfigured(PlaceholderConfig)
    ensures SlackChannelOf(PlaceholderConfig).Some?
  {
    var url := SlackPlaceholderPrefix + "/WEBHOOK/URL";
    assert StartsWith(url, SlackPlaceholderPrefix) by {
      assert url[..|SlackPlaceholderPrefix|] == SlackPlaceholderPrefix;
    }
  }

  const PasswordlessConfig: Config :=
    map["email" := map["sender_email" := "a@b", "recipient_emails" := "c@d"]]

  /** An e-mail channel needs no password, though the validator asks for one. */
  lemma PasswordlessEmailHasChannel()
    ensures !IsEmailConfigured(PasswordlessConfig)
    ensures EmailChannelOf(PasswordlessConfig).Some?
  {
    var cfg := PasswordlessConfig;
    var section := map["sender_email" := "a@b", "recipient_emails" := "c@d"];
    assert cfg["email"] == section;
    assert "sender_password" !in section;
    assert "sender_password" in RequiredEmailFields;
    assert "smtp_port" !in section;
    assert GetInt(cfg, "email", "smtp_port", 587).Ok?;
    assert IsSet(Get(cfg, "email", "sender_email"));
  }

  /** What the manager is built from: the limiter's interval and the channels that came up. */
  datatype Setup = Setup(minInterval: int, email: Option<EmailChannel>, slack: Option<SlackChannel>)

  /**
   * `NotificationManager.__init__` up to the objects it creates: it fails when
   * `rate_limit_seconds` is not an integer; a failing channel only stays absent.
   */
  function ManagerSetup(cfg: Config): (r: Result<Setup>)
    ensures r.Err? <==> RateLimitSeconds(cfg).Err?
    ensures r.Ok? ==> r.value.minInterval == RateLimitSeconds(cfg).value
    ensures r.Ok? && Get(cfg, "general", "rate_limit_seconds").None? ==> r.value.minInterval == 300
    ensures r.Ok? ==> r.value.email == EmailChannelOf(cfg) && r.value.slack == SlackChannelOf(cfg)
  {
    match RateLimitSeconds(cfg)
    case Err(e) => Err(e)
    case Ok(seconds) => Ok(Setup(seconds, EmailChannelOf(cfg), SlackChannelOf(cfg)))
  }

  // ---------------------------------------------------------------------------
  // dispatch

  /** A message handed to a transport. */
  datatype Delivery = EmailDelivery(message: EmailMessage) | SlackDelivery(webhookUrl: string, payload: SlackPayload)

  /** The result dictionary of `send_all_alerts`. */
  datatype AlertResults = AlertResults(emailSent: bool, slackSent: bool, anySent: bool)

  const NothingSent: AlertResults := AlertResults(false, false, false)

  /** What one alert does once the gate has let it through: the results and the deliveries, in order. */
  datatype Dispatch = Dispatch(results: AlertResults, attempts: seq<Delivery>)

  /** Whether a transport reports success for a delivery. */
  function Delivered(d: Delivery, emailSink: EmailMessage -> bool, slackSink: (string, SlackPayload) -> bool): bool {
    match d
    case EmailDelivery(m) => emailSink(m)
    case SlackDelivery(url, p) => slackSink(url, p)
  }

  /** The deliveries one channel makes for an alert: one when configured, none otherwise. */
  function EmailAttempts(email: Option<EmailChannel>, info: ErrorRecord): seq<Delivery> {
    if email.Some? then [EmailDelivery(CreateEmailMessage(email.value, info))] else []
  }

  function SlackAttempts(slack: Option<SlackChannel>, info: ErrorRecord, now: int): seq<Delivery> {
    if slack.Some? then [SlackDelivery(slack.value.webhookUrl, CreateSlackPayload(slack.value, info, now))] else []
  }

  /** `EmailNotifier.send_alert` behind `send_email_alert`: false without a channel, otherwise the transport's answer. */
  function EmailSent(email: Option<EmailChannel>, info: ErrorRecord, emailSink: EmailMessage -> bool): bool {
    email.Some? && emailSink(CreateEmailMessage(email.value, info))
  }

  /** `SlackNotifier.send_alert` behind `send_slack_alert`. */
  function SlackSent(slack: Option<SlackChannel>, info: ErrorRecord, now: int, slackSink: (string, SlackPayload) -> bool): bool {
    slack.Some? && slackSink(slack.value.webhookUrl, CreateSlackPayload(slack.value, info, now))
  }

  /** The granted branch of `send_all_alerts`: e-mail is tried, then Slack, whatever e-mail returned. */
  function Dispatched(email: Option<EmailChannel>, slack: Option<SlackChannel>, info: ErrorRecord, now: int,
                      emailSink: EmailMessage -> bool, slackSink: (string, SlackPayload) -> bool): (d: Dispatch)
    ensures |d.attempts| == (if email.Some? then 1 else 0) + (if slack.Some? then 1 else 0)
  {
    var e := EmailAttempts(email, info);
    var s := SlackAttempts(slack, info, now);
    var emailSent := EmailSent(email, info, emailSink);
    var slackSent := SlackSent(slack, info, now, slackSink);
    Dispatch(AlertResults(emailSent, slackSent, emailSent || slackSent), e + s)
  }

  /**
   * The results read like the delivery log: a channel reports success exactly
   * when a delivery of its kind went through, and `any_sent` exactly when
   * some delivery did.
   */
  lemma {:induction false} ResultsMatchDeliveries(email: Option<EmailChannel>, slack: Option<SlackChannel>, info: ErrorRecord, now: int,
                                                  emailSink: EmailMessage -> bool, slackSink: (string, SlackPayload) -> bool)
    ensures var d := Dispatched(email, slack, info, now, emailSink, slackSink);
      && (d.results.emailSent <==> exists k | 0 <= k < |d.attempts| :: d.attempts[k].EmailDelivery? && Delivered(d.attempts[k], emailSink, slackSink))
      && (d.results.slackSent <==> exists k | 0 <= k < |d.attempts| :: d.attempts[k].SlackDelivery? && Delivered(d.attempts[k], emailSink, slackSink))
      && (d.results.anySent <==> exists k | 0 <= k < |d.attempts| :: Delivered(d.attempts[k], emailSink, slackSink))
  {
    var d := Dispatched(email, slack, info, now, emailSink, slackSink);
    var e := EmailAttempts(email, info);
    var s := SlackAttempts(slack, info, now);
    assert d.attempts == e + s;
    assert forall k | 0 <= k < |e| :: d.attempts[k] == e[k] && e[k].EmailDelivery?;
    assert forall k | |e| <= k < |d.attempts| :: d.attempts[k] == s[k - |e|] && s[k - |e|].SlackDelivery?;
    if email.Some? {
      assert d.attempts[0] == e[0];
      assert d.results.emailSent == Delivered(e[0], emailSink, slackSink);
    }
    if slack.Some? {
      assert d.attempts[|e|] == s[0];
      assert d.results.slackSent == Delivered(s[0], emailSink, slackSink);
    }
  }

  /** E-mail goes first, and Slack is tried whenever it is configured, whether or not the e-mail went through. */
  lemma EmailBeforeSlack(email: Option<EmailChannel>, slack: Option<SlackChannel>, info: ErrorRecord, now: int,
                         emailSink: EmailMessage -> bool, slackSink: (string, SlackPayload) -> bool)
    ensures var d := Dispatched(email, slack, info, now, emailSink, slackSink);
      && (email.Some? <==> d.attempts != [] && d.attempts[0].EmailDelivery?)
      && (slack.Some? <==> d.attempts != [] && d.attempts[|d.attempts| - 1].SlackDelivery?)
  {
  }

  /** The record `test_notifications` sends. */
  const TestLevel: string := "TEST"
  const TestMessage: string := "This is a test notification from Log Monitor Demo"

  /** The test record; the source reads the clock separately for its timestamp and its line. */
  function TestRecord(stamp: string, lineStamp: string, isoNow: string): (r: ErrorRecord)
    ensures r.line != r.message
    ensures r.level == TestLevel && r.matchedKeyword == TestLevel
  {
    ErrorRecord(stamp, TestLevel, TestMessage, lineStamp + " " + TestLevel + ": " + TestMessage, TestLevel, isoNow)
  }

  /** A test alert is styled as an unknown level on both channels and shows its full line on Slack. */
  lemma TestAlertShape(ch: SlackChannel, stamp: string, lineStamp: string, isoNow: string, now: int)
    ensures var p := CreateSlackPayload(ch, TestRecord(stamp, lineStamp, isoNow), now);
      && |p.attachments[0].fields| == 6
      && p.attachments[0].color == "good"
      && HtmlLevelColor(TestLevel) == DefaultHtmlColor
  {
    var info := TestRecord(stamp, lineStamp, isoNow);
    assert |Titles(AlertFields(info))| == 6;
  }

  /** `NotificationManager`: the channels chosen at construction, the limiter, and the deliveries made so far. */
  class NotificationManager {
    const emailChannel: Option<EmailChannel>
    const slackChannel: Option<SlackChannel>
    const rateLimiter: RateLimiter
    var deliveries: seq<Delivery>

    constructor (setup: Setup)
      ensures emailChannel == setup.email && slackChannel == setup.slack
      ensures fresh(rateLimiter)
      ensures rateLimiter.minInterval == setup.minInterval && rateLimiter.lastNotificationTime == 0
      ensures deliveries == []
    {
      emailChannel := setup.email;
      slackChannel := setup.slack;
      rateLimiter := new RateLimiter(setup.minInterval);
      deliveries := [];
    }

    /** `should_send_notification`: the limiter's answer at `now`. */
    method ShouldSendNotification(now: int) returns (granted: bool)
      modifies rateLimiter
      ensures granted <==> Grants(old(rateLimiter.lastNotificationTime), rateLimiter.minInterval, now)
      ensures rateLimiter.lastNotificationTime == if granted then now else old(rateLimiter.lastNotificationTime)
    {
      granted := rateLimiter.ShouldSendNotification(now);
    }

    /** `send_email_alert`: false without an e-mail channel, otherwise the transport's answer. */
    method SendEmailAlert(info: ErrorRecord, emailSink: EmailMessage -> bool) returns (sent: bool)
      modifies this`deliveries
      ensures deliveries == old(deliveries) + EmailAttempts(emailChannel, info)
      ensures sent == EmailSent(emailChannel, info, emailSink)
    {
      if emailChannel.Some? {
        var message := CreateEmailMessage(emailChannel.value, info);
        deliveries := deliveries + [EmailDelivery(message)];
        sent := emailSink(message);
      } else {
        sent := false;
      }
    }

    /** `send_slack_alert`: false without a Slack channel, otherwise the transport's answer. */
    method SendSlackAlert(info: ErrorRecord, now: int, slackSink: (string, SlackPayload) -> bool) returns (sent: bool)
      modifies this`deliveries
      ensures deliveries == old(deliveries) + SlackAttempts(slackChannel, info, now)
      ensures sent == SlackSent(slackChannel, info, now, slackSink)
    {
      if slackChannel.Some? {
        var payload := CreateSlackPayload(slackChannel.value, info, now);
        deliveries := deliveries + [SlackDelivery(slackChannel.value.webhookUrl, payload)];
        sent := slackSink(slackChannel.value.webhookUrl, payload);
      } else {
        sent := false;
      }
    }

    /**
     * `send_all_alerts`: nothing is attempted and every result is false when
     * the gate denies; otherwise the alert is dispatched to both channels.
     */
    method SendAllAlerts(info: ErrorRecord, now: int,
                         emailSink: EmailMessage -> bool, slackSink: (string, SlackPayload) -> bool)
      returns (results: AlertResults)
      modifies this`deliveries, rateLimiter
      ensures var granted := Grants(old(rateLimiter.lastNotificationTime), rateLimiter.minInterval, now);
        && rateLimiter.lastNotificationTime == (if granted then now else old(rateLimiter.lastNotificationTime))
        && (!granted ==> results == NothingSent && deliveries == old(deliveries))
        && (granted ==>
              var d := Dispatched(emailChannel, slackChannel, info, now, emailSink, slackSink);
              results == d.results && deliveries == old(deliveries) + d.attempts)
    {
      var granted := ShouldSendNotification(now);
      if !granted {
        return NothingSent;
      }
      var emailSent := SendEmailAlert(info, emailSink);
      var slackSent := SendSlackAlert(info, now, slackSink);
      results := AlertResults(emailSent, slackSent, emailSent || slackSent);
    }

    /**
     * `test_notifications`: reset the limiter, then send the test record
     * through `send_all_alerts`; the gate still denies when `now` is less
     * than the interval after time 0.
     */
    method TestNotifications(stamp: string, lineStamp: string, isoNow: string, now: int,
                             emailSink: EmailMessage -> bool, slackSink: (string, SlackPayload) -> bool)
      returns (results: AlertResults)
      modifies this`deliveries, rateLimiter
      ensures var granted := Grants(0, rateLimiter.minInterval, now);
        && rateLimiter.lastNotificationTime == (if granted then now else 0)
        && (!granted ==> results == NothingSent && deliveries == old(deliveries))
        && (granted ==>
              var d := Dispatched(emailChannel, slackChannel, TestRecord(stamp, lineStamp, isoNow), now, emailSink, slackSink);
              results == d.results && deliveries == old(deliveries) + d.attempts)
    {
      rateLimiter.Reset();
      results := SendAllAlerts(TestRecord(stamp, lineStamp, isoNow), now, emailSink, slackSink);
    }
  }
}
