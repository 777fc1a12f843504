# Real-time error alert: a Dafny model

This project models the core of a small log monitor written in Python. The
monitor tails one log file and reads each new stretch of text once. It spots
lines that contain an error keyword, turns each such line into a structured
alert record, and sends the alert by e-mail and to Slack, at most once per
rate-limit interval. The model covers three components:

- **Log tailing and detection** (`LogFileHandler`), in `log_watcher.dfy` and `extraction.dfy`.
  - The handler keeps a read offset into the growing file. The offset is reset
    when the file shrinks, and only the text past it is read.
  - That text is read as Python's text mode reads it (`\r\n` and a lone
    `\r` become `\n`), then stripped, split on newlines and cleared of blank
    lines.
  - Each line is checked against the ordered keyword list, case-insensitively.
    The first matching keyword wins, and the callback receives one record per
    matched line.
  - The record's timestamp, level and message come from fixed extraction rules
    (`extraction.dfy`, as functions).
  - The handler is a class with a mutable `lastPosition`. The callback is the
    `emitted` sequence, which its methods extend.
- **Rate limiting and dispatch**, in `notification.dfy`.
  - `RateLimiter` is a class over `lastNotificationTime`.
  - The e-mail subject, `From` and `To` headers and the HTML colour table are
    functions, and so are the Slack level table and the Slack webhook payload.
  - `NotificationManager` is a class. It keeps the channels it set up at
    construction, a rate limiter, and a log of every message handed to a
    transport.
- **Configuration helpers** (`config_manager.py`), in `config.dfy`. The
  configuration is a map from section to option to raw text.
  - The functions cover keyword-list parsing, the "is configured" predicates,
    the settings with their defaults and the validation warnings.

`text.dfy` models the few Python string built-ins the source relies on:
`strip`, `split`, `join`, `lower`/`upper`, `find`, `startswith` and `int()`.
`wrappers.dfy` holds `Option` and `Result`.

Conventions:

- Text is ASCII. The file's content is its raw characters, one per byte, and
  the offset and the size count them.
- The text an event reads is translated as text mode does: `\r\n` and a
  lone `\r` each become `\n` (`Text.TranslateNewlines`). Translation never
  lengthens the text, so `read(size - offset)` always reaches the end of the
  file, and the model reads the whole tail.
- Whitespace is what Python's `str.isspace` accepts among ASCII characters.
- A regular-expression word character is `[A-Za-z0-9_]`.
- Case-insensitive matching uses ASCII lower-casing.
- Time is an input. The rate limiter and the Slack `ts` field get whole
  seconds. The record gets its formatted `now` and `detectedAt` strings.
- The SMTP and webhook transports are function parameters that say whether a
  delivery succeeded. The source's `send_alert` methods return exactly that
  after catching every exception.

`_read_new_content` strips the new text and splits it, so a final line with
no terminating newline is processed like any other line
(`LogWatcher.NewLinesOfWrittenLines`).

Some facts the proofs bring out:

- The bracketed timestamp pattern can never be the one that matches: the bare
  pattern is tried first, and it also matches every line the bracketed one
  matches.
- The manager sets up the Slack channel for the shipped placeholder webhook
  URL, even though `is_slack_configured` rejects that URL.
- The manager sets up an e-mail channel without a password, even though
  `is_email_configured` asks for one.
- The level extractor can produce `FAIL`, which neither style table lists.
  A `FAIL` alert therefore gets the default "good" Slack colour and the grey
  e-mail colour.
- The Slack title ends in "..." even when nothing was cut from the message.

## Model

| member | source | states |
|---|---|---|
| `LogWatcher.LogFileHandler.constructor` | log_watcher_component.py:40-48 | the offset starts at the file's current size (0 when the size cannot be read), so text already present is never reported; nothing is emitted yet |
| `LogWatcher.StartPosition` | log_watcher_component.py:89-91 | the offset never grows at the truncation check; it becomes 0 when the file shrank below it, and stays put exactly when the file did not shrink below it (or it is already 0) |
| `LogWatcher.NextPosition` | log_watcher_component.py:86-98 | after an event the offset never exceeds the observed size, and it is either that size or the post-truncation offset |
| `LogWatcher.NewContentIsTail` | log_watcher_component.py:103-119 | what an event reads from a readable file is the file's tail, from the (possibly reset) offset to the offset the event leaves; nothing is read from a file that cannot be opened |
| `LogWatcher.NothingReadNothingReported` | log_watcher_component.py:122-128 | empty new text gives the callback nothing |
| `LogWatcher.LogFileHandler.OnModified` | log_watcher_component.py:65-101 | directory events and events for other paths change nothing; otherwise the offset becomes `NextPosition` and exactly the records of the new lines are appended |
| `LogWatcher.LogFileHandler.ReadNewContent` | log_watcher_component.py:103-131 | the offset moves to the size before any line is processed (unchanged when the file cannot be opened), and the emitted records grow by the event's records, read with newlines translated |
| `LogWatcher.LogFileHandler.ProcessLines` | log_watcher_component.py:122-128 | the loop over the split lines appends, in file order, the records of the non-blank lines |
| `LogWatcher.LogFileHandler.ProcessLogLine` | log_watcher_component.py:146-158 | a line appends exactly its `LineRecords`: the record for the first matching keyword when a callback exists, nothing otherwise |
| `LogWatcher.LogFileHandler.FindKeyword` | log_watcher_component.py:146-147 | the keyword loop stops at the first keyword, in configured order, that occurs in the line, and finds none when no keyword occurs |
| `LogWatcher.NoGrowthIsNoOp` | log_watcher_component.py:93-95 | an event that finds the file at the offset reads nothing, reports nothing and keeps the offset |
| `LogWatcher.RepeatedEventIsNoOp` | log_watcher_component.py:86-98 | a second event on an unchanged file is a no-op, so events are idempotent |
| `LogWatcher.GrowthReadsAppendedText` | log_watcher_component.py:113-119 | on growth exactly the text past the offset is read and the offset moves to the end |
| `LogWatcher.TruncationRereadsFromStart` | log_watcher_component.py:89-98 | a file shrunk below the offset is read again from its start |
| `LogWatcher.EventFromStart` | log_watcher_component.py:86-98 | an event depends on the old offset only through the truncation reset: what it reads and where it leaves the offset are those of an event from the reset offset |
| `LogWatcher.NoGrowthNoEvent` | log_watcher_component.py:93-95 | when the file did not grow past the (reset) offset, nothing is reported and the offset stays at the reset value |
| `LogWatcher.UnreadableFileKeepsOffset` | log_watcher_component.py:110-131 | a file that cannot be opened is not read and only the truncation reset applies |
| `LogWatcher.AppendOnlyReadsEverythingOnce` | log_watcher_component.py:89-119 | over a run of events on an append-only file, the reads together are exactly the text added after the starting offset: nothing lost, nothing read twice |
| `LogWatcher.ReadIsNewContent` | log_watcher_component.py:113-116 | seeking to the offset and reading `size - offset` characters yields the new content |
| `LogWatcher.NonBlank` | log_watcher_component.py:126-127 | dropping blank lines never adds lines |
| `LogWatcher.NonBlankMembers` | log_watcher_component.py:126-127 | the kept lines are exactly the lines that are not whitespace-only |
| `LogWatcher.NonBlankKeepsNonBlank` | log_watcher_component.py:126-127 | lines that are all non-blank are all kept, in order |
| `LogWatcher.NewLinesOfWrittenLines` | log_watcher_component.py:111-128 | lines written with `\n`, `\r` or `\r\n` breaks come back as exactly those lines, the last one included even without a final line break |
| `LogWatcher.FirstMatchFrom` | log_watcher_component.py:146-158 | the chosen keyword matches, and no keyword before it in configured order does; no result means no keyword matches |
| `LogWatcher.Classify` | log_watcher_component.py:146-158 | a line yields a record iff some keyword occurs case-insensitively in it; the record is the extraction for that line and its first matching keyword, which is a configured keyword |
| `LogWatcher.LineRecords` | log_watcher_component.py:151-158 | a line produces at most one callback, and one exactly when a callback exists and some keyword matches |
| `LogWatcher.LineRecordsOfMatch` | log_watcher_component.py:147-158 | when the first match is the `i`-th keyword, the callback gets exactly that keyword's record (nothing without a callback) |
| `LogWatcher.LineRecordsOfNoMatch` | log_watcher_component.py:146-147 | a line no keyword matches gives the callback nothing |
| `LogWatcher.PieceRecords` | log_watcher_component.py:126-128 | a blank piece produces nothing, a non-blank one exactly its line's records, and at most one; without a callback nothing is reported |
| `LogWatcher.Detections` | log_watcher_component.py:122-128 | the lines of one read produce at most one record each, and none without a callback |
| `LogWatcher.NoKeywordsNoDetections` | log_watcher_component.py:146-158 | with an empty keyword list no line is ever reported |
| `LogWatcher.DetectionsCarryConfiguredKeywords` | log_watcher_component.py:146-155 | every reported record carries one of the configured keywords |
| `LogWatcher.EventRecordsAreNewLineRecords` | log_watcher_component.py:122-128 | an event reports the records of the stripped, split, non-blank lines of its new text, in order |
| `Extraction.FindTimestamp` | log_watcher_component.py:180-196 | the result is the leftmost `DDDD-DD-DD DD:DD:DD` position; none means no such substring |
| `Extraction.TimestampIsLeftmostOrNow` | log_watcher_component.py:190-200 | the timestamp is the leftmost date-time in the line, or the supplied current time when there is none |
| `Extraction.BracketedPatternIsSubsumed` | log_watcher_component.py:180-183 | whenever the bracketed pattern would match, the bare pattern has already matched, so the second pattern is never used |
| `Extraction.Slice` | log_watcher_component.py:194-195 | a slice within bounds is the usual subsequence, and no slice is longer than the text |
| `Extraction.AlternativeFrom` | log_watcher_component.py:185-187 | at one position the regex alternation takes the first alternative that matches as a whole word |
| `Extraction.SearchWords` | log_watcher_component.py:204-208 | the search returns the leftmost position where some alternative matches as a whole word |
| `Extraction.LevelClassification` | log_watcher_component.py:202-208 | the level is a severe level iff one occurs as a whole word; a warning level iff no severe but a warning word occurs; `UNKNOWN` iff neither |
| `Extraction.SevereLevelIsLeftmost` | log_watcher_component.py:185-208 | the leftmost whole-word severe level, first alternative at a tie, is the extracted level, upper-cased |
| `Extraction.WarningLevelIsLeftmost` | log_watcher_component.py:185-208 | when no severe word occurs, the leftmost whole-word warning level, first alternative at a tie, is the extracted level; `WARN` never matches inside `WARNING` |
| `Extraction.NoneMeansNoWord` | log_watcher_component.py:204-208 | a failed search means no alternative occurs anywhere as a whole word |
| `Extraction.NoWordAtNonLetter` | log_watcher_component.py:186-187 | no level word can start at a non-letter |
| `Extraction.MatchedTextIsAlternative` | log_watcher_component.py:207 | upper-casing a case-insensitive match of an upper-case word gives that word |
| `Extraction.AfterFirst` | log_watcher_component.py:212-214 | the split at the first occurrence of the level exists iff the level occurs, and it is the text after that occurrence |
| `Extraction.ExtractErrorInfo` | log_watcher_component.py:217-224 | the record's line is the stripped line, the keyword and detection time are those given, and message and line have no surrounding whitespace |
| `Extraction.MessageOccursInLine` | log_watcher_component.py:210-220 | the message is always a contiguous piece of the line |
| `Extraction.MessageFollowsLevel` | log_watcher_component.py:212-215 | when the level occurs, the message is the text after its first occurrence with colons and then whitespace stripped |
| `Extraction.MessageIsLineWithoutLevel` | log_watcher_component.py:211-212 | when the level does not occur literally, the message is the whole line stripped |
| `Extraction.ExampleTimestamp` | log_watcher_component.py:177 | the documented example line has timestamp `2024-01-15 14:30:25` |
| `Extraction.ExampleLevel` | log_watcher_component.py:177 | the documented example line has level `ERROR` |
| `Extraction.ExampleMessage` | log_watcher_component.py:177 | the documented example line has message `Database connection failed` |
| `Extraction.ExampleDatabaseError` | log_watcher_component.py:177-224 | the whole record extracted from the documented example line |
| `Notification.Decisions` | notification_manager.py:44-60 | the gate answers once per call |
| `Notification.RateLimiter.constructor` | notification_manager.py:32-40 | a new limiter keeps its interval and has last-notification time 0 |
| `Notification.RateLimiter.ShouldSendNotification` | notification_manager.py:44-60 | grants iff `now - last >= minInterval`; a grant records `now`, a denial changes nothing |
| `Notification.RateLimiter.Reset` | notification_manager.py:62-65 | the last-notification time goes back to 0 |
| `Notification.DeniedWithinInterval` | notification_manager.py:51-60 | every call within the interval after the last notification is denied, however many there are |
| `Notification.GrantedAfterLast` | notification_manager.py:51-56 | a granted call is at least the interval after the last notification |
| `Notification.GrantsAreSpaced` | notification_manager.py:51-60 | any two granted calls are at least the interval apart |
| `Notification.NoIntervalGrantsAll` | notification_manager.py:39-56 | with no minimum interval, every call on a clock that never runs backwards is granted |
| `Notification.SlackLevelStyle` | notification_manager.py:351-360 | the colour is "good" exactly for levels missing from the table, and "danger" exactly for CRITICAL, ERROR and FATAL |
| `Notification.HtmlLevelColor` | notification_manager.py:196-205 | the grey default exactly for levels missing from the table; red exactly for CRITICAL and FATAL |
| `Notification.ExtractedLevelStyles` | notification_manager.py:351-360 | of the levels the extractor produces, exactly FAIL and UNKNOWN get the default Slack style |
| `Notification.SubjectNamesLevel` | notification_manager.py:137 | the subject embeds the level, which can be read back out of it |
| `Notification.EscapeName` | notification_manager.py:138 | escaping a display name never shortens it |
| `Notification.UnescapeEscapeName` | notification_manager.py:138 | the escaped display name loses nothing: unescaping recovers it |
| `Notification.FormatAddr` | notification_manager.py:138 | the `From` header is the bare address without a name, and ends in the address in angle brackets otherwise |
| `Notification.SpecialNameQuoted` | notification_manager.py:138 | a display name holding one of the address specials is put in double quotes, with backslashes and quotes escaped |
| `Notification.PlainNameVerbatim` | notification_manager.py:138 | a display name without special characters appears verbatim and unquoted |
| `Notification.NotifierRecipients` | notification_manager.py:88-91 | the notifier's recipients are one per comma-separated piece, each trimmed, empty pieces kept |
| `Notification.NotifierRecipientsOfJoin` | notification_manager.py:88-91 | trimmed, comma-free addresses joined with commas are read back one for one and in order, empty ones included (helpers `NotifierRecipientsPieces`, `StripCleanPiece`) |
| `Notification.ToHeaderListsRecipients` | notification_manager.py:139 | clean recipients joined for the `To` header parse back to the same list |
| `Notification.CreateEmailMessage` | notification_manager.py:123-149 | the subject names the alert's level; `From` is the formatted sender, `To` the recipients joined by ", "; the colour is the level's table colour, grey exactly for untabled levels; the body renders the alert record |
| `Notification.Truncated` | notification_manager.py:368 | `s[:n]` is the prefix of length `min(|s|, n)` |
| `Notification.AlertTitle` | notification_manager.py:368 | the title is the level, then ": ", then the first at most 100 characters of the message (all of it when short enough), and "..." |
| `Notification.AlertFields` | notification_manager.py:369-407 | the fields are Timestamp, Level, Matched Keyword, Detection Time and Error Message in that order, plus Full Log Line iff the line differs from the message; only the first four are short |
| `Notification.AlertText` | notification_manager.py:363 | the headline starts with the level's emoji and ends with the level and " detected" |
| `Notification.CreateSlackPayload` | notification_manager.py:340-415 | one attachment, coloured by the level's style, stamped with the given time, titled by `AlertTitle` and carrying `AlertFields`, with the fixed footer and icon; the headline is `AlertText`, for the channel and user name configured |
| `Notification.SlackPayloadRoundTrip` | notification_manager.py:340-415 | the whole alert record can be read back from the payload's fields |
| `Notification.EmailChannelOf` | notification_manager.py:76-92 | an e-mail channel exists iff the section exists, the sender is non-empty, the port is an integer or absent, and the recipient option exists; then each option is taken as written (the port parsed, the password as found, the recipients split and trimmed) and defaults apply only to missing ones |
| `Notification.SlackChannelOf` | notification_manager.py:290-299 | a Slack channel exists iff the section exists and the webhook URL is non-empty; then the URL, channel and user name are taken as written, and channel and user name default to `#alerts` and `Log Monitor` only when missing |
| `Notification.ConfiguredEmailHasChannel` | notification_manager.py:444-450 | a configuration `is_email_configured` accepts, with a valid port, gets an e-mail channel |
| `Notification.ConfiguredSlackHasChannel` | notification_manager.py:452-457 | a configuration `is_slack_configured` accepts gets a Slack channel |
| `Notification.PlaceholderWebhookEnablesSlack` | notification_manager.py:452-457 | the placeholder webhook URL is rejected by `is_slack_configured` yet still enables the Slack channel |
| `Notification.PasswordlessEmailHasChannel` | notification_manager.py:444-450 | an e-mail channel comes up without a password, which `is_email_configured` requires |
| `Notification.ManagerSetup` | notification_manager.py:426-462 | construction fails exactly when `rate_limit_seconds` is not an integer; the interval is that setting, 300 when missing; the e-mail and Slack channels are those read from the configuration |
| `Notification.Dispatched` | notification_manager.py:529-535 | one delivery per configured channel |
| `Notification.ResultsMatchDeliveries` | notification_manager.py:529-535 | `email_sent`, `slack_sent` and `any_sent` are true exactly when a delivery of that kind, or any delivery, went through |
| `Notification.EmailBeforeSlack` | notification_manager.py:529-532 | the e-mail is attempted first iff configured, and Slack last iff configured, whatever the e-mail returned |
| `Notification.TestRecord` | notification_manager.py:552-559 | the test record has level and keyword TEST and a line that differs from its message |
| `Notification.TestAlertShape` | notification_manager.py:552-563 | the test alert shows six Slack fields and the default styles on both channels |
| `Notification.NotificationManager.constructor` | notification_manager.py:426-462 | the manager keeps the channels that came up and a fresh limiter at time 0 |
| `Notification.NotificationManager.ShouldSendNotification` | notification_manager.py:464-471 | the manager's gate is the limiter's |
| `Notification.NotificationManager.SendEmailAlert` | notification_manager.py:473-487 | false and no delivery without an e-mail channel; otherwise one delivery and the transport's answer |
| `Notification.NotificationManager.SendSlackAlert` | notification_manager.py:489-503 | false and no delivery without a Slack channel; otherwise one delivery and the transport's answer |
| `Notification.NotificationManager.SendAllAlerts` | notification_manager.py:505-542 | a denied gate sends nothing and returns all false; a granted one records the time and dispatches to both channels |
| `Notification.NotificationManager.TestNotifications` | notification_manager.py:544-571 | resets the limiter, then sends the test record through the gate measured from time 0 |
| `Config.GetOrUsesFallbackOnlyWhenMissing` | config_manager.py:331-333 | the fallback stands in only for a missing option |
| `Config.GetInt` | config_manager.py:335-337 | a missing option gives the fallback; a present one succeeds iff it parses as an integer, and then gives the parsed value |
| `Config.CleanPiece` | config_manager.py:201-204 | a piece gives at most one item, and a comma-free piece only a clean one |
| `Config.CleanPieces` | config_manager.py:201-204 | every non-blank piece appears trimmed in the result, and there are never more items than pieces |
| `Config.CleanPiecesAreClean` | config_manager.py:201-204 | comma-free pieces leave only non-empty, trimmed, comma-free items |
| `Config.CommaList` | config_manager.py:201-204 | every item is non-empty, trimmed and comma-free, and there are at most one more items than commas |
| `Config.CommaListConcat` | config_manager.py:201-204 | the list keeps the written order across a comma |
| `Config.CommaListIgnoresLeadingWhitespace` | config_manager.py:201 | any run of whitespace before the list changes nothing |
| `Config.CommaListSingle` | config_manager.py:201-204 | one clean item parses as itself |
| `Config.CommaListJoin` | config_manager.py:201-204 | clean items joined with ", " parse back to the same items (helper `CommaListItemFirst`) |
| `Config.ErrorKeywords` | config_manager.py:191-206 | every keyword is non-empty and trimmed |
| `Config.DefaultErrorKeywords` | config_manager.py:198 | without the option the keywords are exactly ERROR, CRITICAL, EXCEPTION, FATAL |
| `Config.DefaultKeywordsListed` | config_manager.py:198-204 | the default keyword text parses to exactly the four default keywords, in order (helpers `DefaultKeywordsPieces`, `DefaultKeywordsJoined`, `DefaultKeywordsClean`) |
| `Config.AllSet` | config_manager.py:227-230 | true iff every listed option is present and non-empty |
| `Config.IsEmailConfigured` | config_manager.py:217-232 | true iff the `email` section exists and its sender, password and recipients are all non-empty |
| `Config.IsSlackConfigured` | config_manager.py:234-248 | true iff the `slack` section exists and its webhook URL is non-empty and not the placeholder |
| `Config.GetEmailSettings` | config_manager.py:250-271 | nothing exactly when the section is missing; an error exactly when the port is not an integer; otherwise each present option as written (the port parsed, the recipients the parsed comma list), defaults only for missing ones |
| `Config.GetSlackSettings` | config_manager.py:273-287 | nothing exactly without the section; otherwise the URL as found, and the channel and user name as written or, when missing, their defaults |
| `Config.EmailFieldWarningsCount` | config_manager.py:155-160 | one warning per missing or empty required e-mail option, and none exactly when all are set |
| `Config.EmailFieldWarningsNameUnset` | config_manager.py:154-159 | each e-mail warning names a required option that is missing or empty, and every such option is named |
| `Config.EmailWarningsMatchConfigured` | config_manager.py:154-160 | with an `email` section there are no e-mail warnings exactly when e-mail is configured |
| `Config.SlackWarningIffNotConfigured` | config_manager.py:163-166 | the Slack warning appears exactly when a `slack` section exists that `is_slack_configured` rejects (helper `SlackWarningsIff`) |
| `Config.KeywordWarningIffNoKeywords` | config_manager.py:150-151 | the keyword warning appears exactly when the keyword list is empty |
| `Config.EmailFieldWarningsAreEmailOnly` | config_manager.py:155-160 | the e-mail checks produce only e-mail warnings |
| `Text.StripChars` | log_watcher_component.py:215 | `strip(chars)` is never longer than the text, has neither end in `chars`, and is empty exactly when every character is in `chars` |
| `Text.StripOccurs` | log_watcher_component.py:215 | what a strip leaves is a contiguous piece of the original text |
| `Text.StripKeepsAbsent` | config_manager.py:201 | stripping introduces no character: one absent from the text is absent from its strip |
| `Text.Strip` | log_watcher_component.py:122 | `strip()` leaves no surrounding whitespace and is empty exactly for whitespace-only text |
| `Text.TranslateNewlines` | log_watcher_component.py:111-116 | text read in text mode holds no `\r` and is never longer than the raw text |
| `Text.TranslateWithoutCarriageReturn` | log_watcher_component.py:111-116 | text without `\r` is read as written, so translating is idempotent |
| `Text.TranslateJoin` | log_watcher_component.py:111-116 | lines joined with `\n`, `\r` or `\r\n` read as the same lines joined with `\n` |
| `Text.StripCharsIdempotent` | log_watcher_component.py:215 | stripping twice is stripping once |
| `Text.Split` | log_watcher_component.py:123 | `split` on one character gives one more piece than separators, none holding the separator |
| `Text.JoinSplit` | log_watcher_component.py:123 | joining the pieces of a split gives back the text |
| `Text.SplitJoin` | log_watcher_component.py:123 | splitting pieces joined with a separator they do not hold gives back the pieces |
| `Text.IndexOfFrom` | log_watcher_component.py:212-213 | the first occurrence at or after a position, and none means no occurrence |
| `Text.UpperOfCaseInsensitiveMatch` | log_watcher_component.py:207 | upper-casing text that matches an upper-case word case-insensitively gives the word |
| `Text.SameIgnoringCaseIsLowerEqual` | log_watcher_component.py:203-204 | comparing character by character up to case agrees with comparing the lower-cased texts |
| `Text.ParseIntToString` | config_manager.py:335-337 | `int(str(n)) == n` |

## Left out

- The watchdog observer, its threads and the `LogWatcher` start, stop and
  running logic are not modelled. They concern how the operating system
  delivers events; the model receives events one at a time.
- `LogWatcher._validate_log_file` is not modelled. It creates directories and
  files and checks permissions on disk.
- File I/O is a snapshot (`FileState`) passed to each event. The size and the
  text come from the same snapshot, so a race between the size query and the
  read is not modelled.
- UTF-8 multi-byte characters are not modelled. The text is taken to be
  ASCII; a multi-byte character would make `read(n)` count characters where
  `getsize` counts bytes.
- Keywords are literal, case-insensitive substrings. Keywords with regular
  expression syntax are not modelled.
- The wall clock is left out: `datetime.now()`, `time.time()` and ISO
  formatting are inputs.
  - One `now`/`detectedAt` pair serves a whole event, where the source reads
    the clock once per matched line.
  - The gate and the Slack `ts` field read the same `now`, where the source
    reads the clock twice.
  - Times are whole seconds, not floats.
- Transport is left out: SMTP login and sending, and `requests.post`, are the
  `emailSink` and `slackSink` parameters. The sinks are functions, so the same
  message always gets the same answer.
- The rendered text and HTML e-mail bodies and the MIME assembly are left
  out. The message keeps the record both bodies render and the accent colour.
- `FormatAddr` assumes an ASCII display name. The RFC 2047 encoding of
  non-ASCII names is not modelled, nor is the failure raised by a non-ASCII
  address.
- Reading and writing the configuration file, creating the default file and
  resolving the log path are left out. So are the INI reader's `DEFAULT`
  section, interpolation, and `int()`'s acceptance of underscores.
- `get_log_file_path` and its "Log file path not specified" warning are left
  out. The resolved path is never empty, so that warning never fires.
- Console output (`print`, `print_configuration_summary`) is left out.
- `log_monitor_main.py` is not part of this model. It repeats the
  gate-then-e-mail-then-Slack pattern of `send_all_alerts`.
- A callback that raises is not modelled. In the source such an exception
  ends the processing of the rest of that read, with the offset already
  moved.
- `Notification.EmailChannelOf` does not model a standalone `EmailNotifier`
  built without a sender address. The manager only builds one when the
  sender is set.
- `LogWatcher.LogFileHandler.ProcessLines` is the loop of
  `_read_new_content` lines 126-128, kept in its own method. The loop's proof
  is the same either way.
- `LogWatcher.LogFileHandler.FindKeyword` is the keyword loop of
  `_process_log_line` lines 146-158, kept in its own method. Its `break`
  becomes the loop's exit at the first match; `ProcessLogLine` then extracts
  the record and calls the callback once.
