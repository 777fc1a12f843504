/**
 * The configuration helpers of the log monitor. The configuration is the
 * already-loaded INI data: section name to option name to the option's raw
 * text. Option names are the lower-case keys the INI reader stores.
 */
module Config {
  import opened Wrappers
  import opened Text
  import opened Seqs

  type Section = map<string, string>
  type Config = map<string, Section>

  // ---------------------------------------------------------------------------
  // lookups

  /**
   * `get(section, option)` as the helper calls it, with `fallback=None`: the
   * raw text, or `None` when the section or the option is missing.
   */
  function Get(cfg: Config, section: string, option: string): Option<string> {
    if section in cfg && option in cfg[section] then Some(cfg[section][option]) else None
  }

  /** `get(section, option, fallback=...)` with a text fallback. */
  function GetOr(cfg: Config, section: string, option: string, fallback: string): string {
    match Get(cfg, section, option)
    case Some(v) => v
    case None => fallback
  }

  /**
   * The fallback stands in only for a missing option: a present option is
   * returned as written, even when it is empty.
   */
  lemma GetOrUsesFallbackOnlyWhenMissing(cfg: Config, section: string, option: string, fallback: string)
    ensures section in cfg && option in cfg[section] ==> GetOr(cfg, section, option, fallback) == cfg[section][option]
    ensures !(section in cfg && option in cfg[section]) ==> GetOr(cfg, section, option, fallback) == fallback
  {
  }

  /**
   * `getint(section, option, fallback=...)`: the fallback when the option is
   * missing, the parsed number when it is an integer literal, and an error
   * (Python's `ValueError`) otherwise.
   */
  function GetInt(cfg: Config, section: string, option: string, fallback: int): (r: Result<int>)
    ensures Get(cfg, section, option).None? ==> r == Ok(fallback)
    ensures Get(cfg, section, option).Some? ==>
      (r.Ok? <==> ParseInt(Get(cfg, section, option).value).Some?)
    ensures Get(cfg, section, option).Some? && r.Ok? ==> ParseInt(Get(cfg, section, option).value) == Some(r.value)
  {
    match Get(cfg, section, option)
    case None => Ok(fallback)
    case Some(v) =>
      match ParseInt(v)
      case Some(n) => Ok(n)
      case None => Err("invalid literal for int(): " + v)
  }

  /** Python truthiness of a looked-up option: present and not empty. */
  predicate IsSet(v: Option<string>) {
    v.Some? && v.value != ""
  }

  // ---------------------------------------------------------------------------
  // comma-separated lists

  /** A list item as the comma-list parser leaves it: non-empty, trimmed, comma-free. */
  predicate IsCleanItem(k: string) {
    k != [] && k[0] !in Whitespace && k[|k| - 1] !in Whitespace && ',' !in k
  }

  /** One piece of the list: its stripped text, or nothing when that is empty. */
  function CleanPiece(p: string): (r: seq<string>)
    ensures |r| <= 1
    ensures r == [] <==> IsBlank(p)
    ensures r != [] ==> r[0] == Strip(p)
    ensures ',' !in p ==> forall k | k in r :: IsCleanItem(k)
  {
    var k := Strip(p);
    if k == [] then []
    else if ',' in p then [k]
    else StripKeepsAbsent(p, ','); [k]
  }

  /** Strips every piece and keeps the non-empty results, in order. */
  function CleanPieces(pieces: seq<string>): (r: seq<string>)
    ensures |r| <= |pieces|
    ensures forall p | p in pieces && !IsBlank(p) :: Strip(p) in r
  {
    forall p | p in pieces && !IsBlank(p) ensures Strip(p) in FlatMap(pieces, CleanPiece) {
      FlatMapIncludes(pieces, CleanPiece, p, Strip(p));
    }
    FlatMap(pieces, CleanPiece)
  }

  /** Pieces without commas leave only clean items. */
  lemma CleanPiecesAreClean(pieces: seq<string>)
    requires forall p | p in pieces :: ',' !in p
    ensures forall k | k in CleanPieces(pieces) :: IsCleanItem(k)
  {
    forall k | k in CleanPieces(pieces) ensures IsCleanItem(k) {
      FlatMapMember(pieces, CleanPiece, k);
    }
  }

  /**
   * `[x.strip() for x in raw.split(',')]` without the empty results: the
   * idiom behind both the keyword list and the recipient list. There are at
   * most one more items than commas.
   */
  function CommaList(raw: string): (r: seq<string>)
    ensures forall k | k in r :: IsCleanItem(k)
    ensures |r| <= CountChar(raw, ',') + 1
  {
    var pieces := Split(raw, ',');
    assert forall k | k in CleanPieces(pieces) :: IsCleanItem(k) by {
      CleanPiecesAreClean(pieces);
    }
    CleanPieces(pieces)
  }

  /**
   * The list keeps the written order: the items before a comma come first,
   * then the items after it.
   */
  lemma CommaListConcat(a: string, b: string)
    ensures CommaList(a + "," + b) == CommaList(a) + CommaList(b)
  {
    SplitConcat(a, b, ',');
    FlatMapAppend(Split(a, ','), Split(b, ','), CleanPiece);
  }

  /** Whitespace in front of the list changes nothing. */
  lemma CommaListIgnoresLeadingWhitespace(w: string, x: string)
    requires forall i | 0 <= i < |w| :: w[i] in Whitespace
    ensures CommaList(w + x) == CommaList(x)
  {
    var pieces := Split(x, ',');
    assert ',' !in w by {
      assert ',' !in Whitespace;
    }
    SplitPrefix(w, x, ',');
    StripCharsDropsPrefix(w, pieces[0], Whitespace);
    assert Split(w + x, ',') == [w + pieces[0]] + pieces[1..];
    assert pieces == [pieces[0]] + pieces[1..];
    FlatMapCons(w + pieces[0], pieces[1..], CleanPiece);
    FlatMapCons(pieces[0], pieces[1..], CleanPiece);
  }

  /** One clean item parses as itself. */
  lemma CommaListSingle(k: string)
    requires IsCleanItem(k)
    ensures CommaList(k) == [k]
  {
    SplitWithoutSeparator(k, ',');
    assert StripLeft(k, Whitespace) == k;
    assert StripRight(k, Whitespace) == k;
    FlatMapCons(k, [], CleanPiece);
    assert [k] + [] == [k];
  }

  /**
   * Round trip: clean items written out as `", ".join(items)` parse back to
   * exactly those items.
   */
  lemma {:induction false} CommaListJoin(ks: seq<string>)
    requires forall k | k in ks :: IsCleanItem(k)
    ensures CommaList(Join(ks, ", ")) == ks
  {
    if ks == [] {
      assert Split([], ',') == [[]];
    } else if |ks| == 1 {
      CommaListSingle(ks[0]);
    } else {
      var rest := Join(ks[1..], ", ");
      calc {
        CommaList(Join(ks, ", "));
        CommaList(ks[0] + ", " + rest);
        { assert ks[0] in ks; CommaListItemFirst(ks[0], rest); }
        [ks[0]] + CommaList(rest);
        { assert forall k | k in ks[1..] :: k in ks; CommaListJoin(ks[1..]); }
        [ks[0]] + ks[1..];
        ks;
      }
    }
  }

  /** A clean item, a comma and a space in front of a list add that item in front. */
  lemma CommaListItemFirst(k: string, rest: string)
    requires IsCleanItem(k)
    ensures CommaList(k + ", " + rest) == [k] + CommaList(rest)
  {
    calc {
      CommaList(k + ", " + rest);
      { assert k + ", " + rest == k + "," + (" " + rest); }
      CommaList(k + "," + (" " + rest));
      { CommaListConcat(k, " " + rest); }
      CommaList(k) + CommaList(" " + rest);
      { CommaListSingle(k); CommaListIgnoresLeadingWhitespace(" ", rest); }
      [k] + CommaList(rest);
    }
  }

  // ---------------------------------------------------------------------------
  // [general]

  const DefaultKeywordList: seq<string> := ["ERROR", "CRITICAL", "EXCEPTION", "FATAL"]
  const DefaultKeywords: string := "ERROR, CRITICAL, EXCEPTION, FATAL"

  /** `get_error_keywords`: the configured keyword list, or the default one. */
  function ErrorKeywords(cfg: Config): (r: seq<string>)
    ensures forall k | k in r :: IsCleanItem(k)
  {
    CommaList(GetOr(cfg, "general", "error_keywords", DefaultKeywords))
  }

  /** Without an `error_keywords` option the keywords are exactly the four defaults. */
  lemma DefaultErrorKeywords(cfg: Config)
    requires Get(cfg, "general", "error_keywords").None?
    ensures ErrorKeywords(cfg) == DefaultKeywordList
  {
    assert GetOr(cfg, "general", "error_keywords", DefaultKeywords) == DefaultKeywords;
    DefaultKeywordsListed();
  }

  /** The default keyword text is the default list, written out. */
  lemma DefaultKeywordsListed()
    ensures CommaList(DefaultKeywords) == DefaultKeywordList
  {
    DefaultKeywordsJoined();
    DefaultKeywordsClean();
    CommaListJoin(DefaultKeywordList);
  }

  lemma DefaultKeywordsJoined()
    ensures Join(DefaultKeywordList, ", ") == DefaultKeywords
  {
    var ks := DefaultKeywordList;
    assert Join(ks[3..], ", ") == "FATAL";
    assert Join(ks[2..], ", ") == "EXCEPTION" + ", " + "FATAL";
    assert Join(ks[1..], ", ") == "CRITICAL" + ", " + ("EXCEPTION" + ", " + "FATAL");
    assert Join(ks, ", ") == "ERROR" + ", " + ("CRITICAL" + ", " + ("EXCEPTION" + ", " + "FATAL"));
    DefaultKeywordsPieces();
  }

  lemma DefaultKeywordsPieces()
    ensures "ERROR" + ", " + ("CRITICAL" + ", " + ("EXCEPTION" + ", " + "FATAL")) == DefaultKeywords
  {
  }

  lemma DefaultKeywordsClean()
    ensures forall k | k in DefaultKeywordList :: IsCleanItem(k)
  {
    forall k | k in DefaultKeywordList ensures IsCleanItem(k) {
      assert IsUpperWord(k);
    }
  }

  /** `get_rate_limit_seconds`. */
  function RateLimitSeconds(cfg: Config): Result<int> {
    GetInt(cfg, "general", "rate_limit_seconds", 300)
  }

  // ---------------------------------------------------------------------------
  // [email] and [slack]

  const RequiredEmailFields: seq<string> := ["sender_email", "sender_password", "recipient_emails"]

  /** Every listed option of `section` is set (present and non-empty). */
  function AllSet(cfg: Config, section: string, fields: seq<string>): (r: bool)
    ensures r <==> forall f | f in fields :: IsSet(Get(cfg, section, f))
  {
    fields == [] || (IsSet(Get(cfg, section, fields[0])) && AllSet(cfg, section, fields[1..]))
  }

  /**
   * `is_email_configured`: the `email` section exists and its sender address,
   * password and recipient list are all present and non-empty.
   */
  function IsEmailConfigured(cfg: Config): (r: bool)
    ensures r <==> "email" in cfg
                   && (forall f | f in RequiredEmailFields :: f in cfg["email"] && cfg["email"][f] != "")
  {
    HasSection(cfg, "email") && AllSet(cfg, "email", RequiredEmailFields)
  }

  predicate HasSection(cfg: Config, section: string) {
    section in cfg
  }

  /** The webhook URL of the shipped default configuration starts with this. */
  const SlackPlaceholderPrefix: string := "https://hooks.slack.com/services/YOUR"

  /**
   * `is_slack_configured`: the `slack` section exists and its webhook URL is
   * present, non-empty and not the placeholder.
   */
  function IsSlackConfigured(cfg: Config): (r: bool)
    ensures r <==> "slack" in cfg && "webhook_url" in cfg["slack"]
                   && cfg["slack"]["webhook_url"] != ""
                   && !StartsWith(cfg["slack"]["webhook_url"], SlackPlaceholderPrefix)
  {
    if !HasSection(cfg, "slack") then false
    else
      var url := Get(cfg, "slack", "webhook_url");
      !(!IsSet(url) || StartsWith(url.value, SlackPlaceholderPrefix))
  }

  datatype EmailSettings = EmailSettings(
    smtpServer: string,
    smtpPort: int,
    senderEmail: Option<string>,
    senderPassword: Option<string>,
    senderName: string,
    recipientEmails: seq<string>)

  datatype SlackSettings = SlackSettings(webhookUrl: Option<string>, channel: string, username: string)

  /**
   * `get_email_settings`: `Ok(None)` (the empty dictionary) without an
   * `email` section; an error when `smtp_port` is present but not an integer;
   * otherwise the settings with their defaults and the cleaned recipient list.
   */
  function GetEmailSettings(cfg: Config): (r: Result<Option<EmailSettings>>)
    ensures r == Ok(None) <==> "email" !in cfg
    ensures r.Err? <==> "email" in cfg && "smtp_port" in cfg["email"]
                        && ParseInt(cfg["email"]["smtp_port"]).None?
    ensures r.Ok? && r.value.Some? ==>
      var s := r.value.value;
      && "email" in cfg
      && ("smtp_server" !in cfg["email"] ==> s.smtpServer == "smtp.gmail.com")
      && ("smtp_server" in cfg["email"] ==> s.smtpServer == cfg["email"]["smtp_server"])
      && ("smtp_port" !in cfg["email"] ==> s.smtpPort == 587)
      && ("smtp_port" in cfg["email"] ==> ParseInt(cfg["email"]["smtp_port"]) == Some(s.smtpPort))
      && ("sender_name" !in cfg["email"] ==> s.senderName == "Log Monitor")
      && ("sender_name" in cfg["email"] ==> s.senderName == cfg["email"]["sender_name"])
      && s.senderEmail == Get(cfg, "email", "sender_email")
      && s.senderPassword == Get(cfg, "email", "sender_password")
      && (forall e | e in s.recipientEmails :: IsCleanItem(e))
      && ("recipient_emails" !in cfg["email"] ==> s.recipientEmails == [])
      && ("recipient_emails" in cfg["email"] ==> s.recipientEmails == CommaList(cfg["email"]["recipient_emails"]))
  {
    if !HasSection(cfg, "email") then Ok(None)
    else
      match GetInt(cfg, "email", "smtp_port", 587)
      case Err(e) => Err(e)
      case Ok(port) =>
        assert CommaList("") == [];
        Ok(Some(EmailSettings(
          GetOr(cfg, "email", "smtp_server", "smtp.gmail.com"),
          port,
          Get(cfg, "email", "sender_email"),
          Get(cfg, "email", "sender_password"),
          GetOr(cfg, "email", "sender_name", "Log Monitor"),
          CommaList(GetOr(cfg, "email", "recipient_emails", "")))))
  }

  /**
   * `get_slack_settings`: `None` (the empty dictionary) without a `slack`
   * section, otherwise the webhook URL as found and the channel and user name
   * with their defaults.
   */
  function GetSlackSettings(cfg: Config): (r: Option<SlackSettings>)
    ensures r.None? <==> "slack" !in cfg
    ensures r.Some? ==>
      && r.value.webhookUrl == Get(cfg, "slack", "webhook_url")
      && ("channel" !in cfg["slack"] ==> r.value.channel == "#alerts")
      && ("channel" in cfg["slack"] ==> r.value.channel == cfg["slack"]["channel"])
      && ("username" !in cfg["slack"] ==> r.value.username == "Log Monitor")
      && ("username" in cfg["slack"] ==> r.value.username == cfg["slack"]["username"])
  {
    if !HasSection(cfg, "slack") then None
    else Some(SlackSettings(
      Get(cfg, "slack", "webhook_url"),
      GetOr(cfg, "slack", "channel", "#alerts"),
      GetOr(cfg, "slack", "username", "Log Monitor")))
  }

  // ---------------------------------------------------------------------------
  // validation

  /** A configuration problem `_validate_configuration` reports. */
  datatype Warning = NoKeywords | EmailFieldMissing(field: string) | SlackNotConfigured

  /** The text printed for each warning. */
  function WarningText(w: Warning): string {
    match w
    case NoKeywords => "No error keywords specified in [general] section"
    case EmailFieldMissing(field) => "Email " + field + " not configured"
    case SlackNotConfigured => "Slack webhook_url not configured or using placeholder"
  }

  /** One warning per required email option that is missing or empty, in order. */
  function EmailFieldWarnings(cfg: Config, fields: seq<string>): seq<Warning> {
    if fields == [] then []
    else
      (if !IsSet(Get(cfg, "email", fields[0])) then [EmailFieldMissing(fields[0])] else [])
      + EmailFieldWarnings(cfg, fields[1..])
  }

  function EmailWarnings(cfg: Config): seq<Warning> {
    if HasSection(cfg, "email") then EmailFieldWarnings(cfg, RequiredEmailFields) else []
  }

  function SlackWarnings(cfg: Config): seq<Warning> {
    if HasSection(cfg, "slack") then
      var webhook := Get(cfg, "slack", "webhook_url");
      if !IsSet(webhook) || StartsWith(webhook.value, SlackPlaceholderPrefix) then [SlackNotConfigured] else []
    else []
  }

  /**
   * The warnings `_validate_configuration` collects, in its order: keywords,
   * then email, then Slack. (The log-path warning never fires: the resolved
   * path is always an absolute, non-empty path.)
   */
  function ValidationWarnings(cfg: Config): seq<Warning> {
    (if ErrorKeywords(cfg) == [] then [NoKeywords] else [])
    + EmailWarnings(cfg)
    + SlackWarnings(cfg)
  }

  /** Number of the listed email options that are missing or empty. */
  function CountUnset(cfg: Config, fields: seq<string>): nat {
    if fields == [] then 0
    else (if IsSet(Get(cfg, "email", fields[0])) then 0 else 1) + CountUnset(cfg, fields[1..])
  }

  lemma {:induction false} EmailFieldWarningsCount(cfg: Config, fields: seq<string>)
    ensures |EmailFieldWarnings(cfg, fields)| == CountUnset(cfg, fields)
    ensures EmailFieldWarnings(cfg, fields) == [] <==> AllSet(cfg, "email", fields)
  {
    if fields != [] {
      EmailFieldWarningsCount(cfg, fields[1..]);
    }
  }

  /**
   * With an `email` section there is one email warning per empty required
   * option, and none exactly when email is configured; without the section
   * there are none.
   */
  lemma EmailWarningsMatchConfigured(cfg: Config)
    ensures "email" in cfg ==> |EmailWarnings(cfg)| == CountUnset(cfg, RequiredEmailFields)
    ensures "email" in cfg ==> (EmailWarnings(cfg) == [] <==> IsEmailConfigured(cfg))
    ensures "email" !in cfg ==> EmailWarnings(cfg) == []
  {
    EmailFieldWarningsCount(cfg, RequiredEmailFields);
  }

  /**
   * The Slack warning appears exactly when a `slack` section exists that
   * `is_slack_configured` rejects.
   */
  lemma SlackWarningIffNotConfigured(cfg: Config)
    ensures SlackNotConfigured in ValidationWarnings(cfg) <==> "slack" in cfg && !IsSlackConfigured(cfg)
  {
    var kw: seq<Warning> := if ErrorKeywords(cfg) == [] then [NoKeywords] else [];
    var em := EmailWarnings(cfg);
    var sl := SlackWarnings(cfg);
    assert ValidationWarnings(cfg) == kw + em + sl;
    assert SlackNotConfigured !in em by {
      EmailFieldWarningsAreEmailOnly(cfg, RequiredEmailFields);
    }
    SlackWarningsIff(cfg);
  }

  /** The Slack part of the validation alone. */
  lemma SlackWarningsIff(cfg: Config)
    ensures SlackNotConfigured in SlackWarnings(cfg) <==> "slack" in cfg && !IsSlackConfigured(cfg)
  {
  }

  /** The keyword warning appears exactly when the keyword list is empty. */
  lemma KeywordWarningIffNoKeywords(cfg: Config)
    ensures NoKeywords in ValidationWarnings(cfg) <==> ErrorKeywords(cfg) == []
  {
    EmailFieldWarningsAreEmailOnly(cfg, RequiredEmailFields);
  }

  /** Each warning names a listed option that is unset, and every unset listed option is named. */
  lemma {:induction false} EmailFieldWarningsNameUnset(cfg: Config, fields: seq<string>)
    ensures forall f | f in fields :: EmailFieldMissing(f) in EmailFieldWarnings(cfg, fields) <==> !IsSet(Get(cfg, "email", f))
    ensures forall w | w in EmailFieldWarnings(cfg, fields) ::
      w.EmailFieldMissing? && w.field in fields && !IsSet(Get(cfg, "email", w.field))
  {
    if fields != [] {
      EmailFieldWarningsNameUnset(cfg, fields[1..]);
      assert forall f | f in fields[1..] :: f in fields;
      assert forall f | f in fields && f != fields[0] :: f in fields[1..];
    }
  }

  lemma {:induction false} EmailFieldWarningsAreEmailOnly(cfg: Config, fields: seq<string>)
    ensures forall w | w in EmailFieldWarnings(cfg, fields) :: w.EmailFieldMissing?
  {
    if fields != [] {
      EmailFieldWarningsAreEmailOnly(cfg, fields[1..]);
    }
  }
}
