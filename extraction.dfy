/**
 * Turning a matched log line into a structured error record, by the log
 * handler's fixed and ordered extraction rules: the first timestamp pattern
 * that matches, the first level pattern that matches, and the text after the
 * level as the message.
 */
module Extraction {
  import opened Wrappers
  import opened Text

  /** What the handler passes to its callback for one matched line. */
  datatype ErrorRecord = ErrorRecord(
    timestamp: string,
    level: string,
    message: string,
    line: string,
    matchedKeyword: string,
    detectedAt: string)

  // ---------------------------------------------------------------------------
  // timestamps

  /** Length of a `YYYY-MM-DD HH:MM:SS` timestamp. */
  const TimestampLength: nat := 19

  /** `n` decimal digits start at index `i` of `s`. */
  predicate DigitsAt(s: string, i: nat, n: nat)
    requires i + n <= |s|
  {
    forall k | i <= k < i + n :: IsDigit(s[k])
  }

  /** The pattern `\d{4}-\d{2}-\d{2} \d{2}:\d{2}:\d{2}` matches at index `i`. */
  predicate TimestampAt(s: string, i: nat) {
    && i + TimestampLength <= |s|
    && DigitsAt(s, i, 4) && s[i + 4] == '-'
    && DigitsAt(s, i + 5, 2) && s[i + 7] == '-'
    && DigitsAt(s, i + 8, 2) && s[i + 10] == ' '
    && DigitsAt(s, i + 11, 2) && s[i + 13] == ':'
    && DigitsAt(s, i + 14, 2) && s[i + 16] == ':'
    && DigitsAt(s, i + 17, 2)
  }

  /** The pattern `\[(\d{4}-\d{2}-\d{2} \d{2}:\d{2}:\d{2})\]` matches at index `i`. */
  predicate BracketedTimestampAt(s: string, i: nat) {
    i + TimestampLength + 2 <= |s| && s[i] == '[' && TimestampAt(s, i + 1) && s[i + TimestampLength + 1] == ']'
  }

  /** `re.search` for a bare timestamp: its leftmost match at or after `from`. */
  function FindTimestamp(s: string, from: nat): (r: Option<nat>)
    ensures r.Some? ==> from <= r.value && TimestampAt(s, r.value)
    ensures r.Some? ==> forall j | from <= j < r.value :: !TimestampAt(s, j)
    ensures r.None? ==> forall j | from <= j :: !TimestampAt(s, j)
    decreases |s| - from
  {
    if from + TimestampLength > |s| then None
    else if TimestampAt(s, from) then Some(from)
    else FindTimestamp(s, from + 1)
  }

  /** `re.search` for a bracketed timestamp: its leftmost match at or after `from`. */
  function FindBracketedTimestamp(s: string, from: nat): (r: Option<nat>)
    ensures r.Some? ==> from <= r.value && BracketedTimestampAt(s, r.value)
    ensures r.None? ==> forall j | from <= j :: !BracketedTimestampAt(s, j)
    decreases |s| - from
  {
    if from + TimestampLength + 2 > |s| then None
    else if BracketedTimestampAt(s, from) then Some(from)
    else FindBracketedTimestamp(s, from + 1)
  }

  /**
   * The timestamp patterns tried in order, each searched over the whole
   * line; the current time `now` when neither matches.
   */
  function ExtractTimestamp(line: string, now: string): string {
    match FindTimestamp(line, 0)
    case Some(i) => line[i..i + TimestampLength]
    case None =>
      match FindBracketedTimestamp(line, 0)
      case Some(i) => Slice(line, i + 1, i + 1 + TimestampLength)
      case None => now
  }

  /** Python's `s[start:end]`, which clamps out-of-range bounds instead of failing. */
  function Slice(s: string, start: nat, end: nat): (r: string)
    ensures start <= end <= |s| ==> r == s[start..end]
    ensures |r| <= |s|
  {
    var e := if end <= |s| then end else |s|;
    var b := if start <= e then start else e;
    s[b..e]
  }

  /**
   * The bracketed pattern never decides anything: wherever it matches, the
   * bare pattern, tried first, matches too.
   */
  lemma BracketedPatternIsSubsumed(line: string)
    ensures FindBracketedTimestamp(line, 0).Some? ==> FindTimestamp(line, 0).Some?
  {
    match FindBracketedTimestamp(line, 0)
    case Some(i) =>
      assert TimestampAt(line, i + 1);
    case None =>
  }

  /**
   * The extracted timestamp is the leftmost `YYYY-MM-DD HH:MM:SS` in the
   * line, or the current time when the line holds none.
   */
  lemma TimestampIsLeftmostOrNow(line: string, now: string, i: nat)
    ensures TimestampAt(line, i) && (forall j | 0 <= j < i :: !TimestampAt(line, j)) ==>
              ExtractTimestamp(line, now) == line[i..i + TimestampLength]
    ensures (forall j :: !TimestampAt(line, j)) ==> ExtractTimestamp(line, now) == now
  {
    BracketedPatternIsSubsumed(line);
  }

  // ---------------------------------------------------------------------------
  // levels

  /** The alternatives of `\b(ERROR|CRITICAL|FATAL|EXCEPTION|FAIL)\b`, in order. */
  const SevereLevels: seq<string> := ["ERROR", "CRITICAL", "FATAL", "EXCEPTION", "FAIL"]

  /** The alternatives of `\b(WARN|WARNING)\b`, in order. */
  const WarningLevels: seq<string> := ["WARN", "WARNING"]

  const UnknownLevel: string := "UNKNOWN"

  /** Every level word is written in capitals. */
  lemma LevelWordsAreUpperWords()
    ensures forall k | 0 <= k < |SevereLevels| :: IsUpperWord(SevereLevels[k])
    ensures forall k | 0 <= k < |WarningLevels| :: IsUpperWord(WarningLevels[k])
  {
    assert IsUpperWord("ERROR") && IsUpperWord("CRITICAL") && IsUpperWord("FATAL");
    assert IsUpperWord("EXCEPTION") && IsUpperWord("FAIL");
    assert IsUpperWord("WARN") && IsUpperWord("WARNING");
  }

  /**
   * `\bw\b` matches case-insensitively at index `i`: the text equals `w` up
   * to case and is not glued to a word character on either side.
   */
  predicate WordAt(s: string, w: string, i: nat) {
    && i + |w| <= |s|
    && SameIgnoringCase(s[i..i + |w|], w)
    && (i == 0 || !IsWordChar(s[i - 1]))
    && (i + |w| == |s| || !IsWordChar(s[i + |w|]))
  }

  /** The first of `alts[k..]`, in pattern order, that matches at index `i`. */
  function AlternativeFrom(s: string, alts: seq<string>, i: nat, k: nat): (r: Option<nat>)
    requires k <= |alts|
    ensures r.Some? ==> k <= r.value < |alts| && WordAt(s, alts[r.value], i)
    ensures r.Some? ==> forall k' | k <= k' < r.value :: !WordAt(s, alts[k'], i)
    ensures r.None? ==> forall k' | k <= k' < |alts| :: !WordAt(s, alts[k'], i)
    decreases |alts| - k
  {
    if k == |alts| then None
    else if WordAt(s, alts[k], i) then Some(k)
    else AlternativeFrom(s, alts, i, k + 1)
  }

  /** A match of an alternation: where it starts and which alternative matched. */
  datatype WordMatch = WordMatch(pos: nat, alt: nat)

  /**
   * `re.search` for an alternation of words: the leftmost index at or after
   * `from` where some alternative matches, with the first alternative that
   * matches there.
   */
  function SearchWords(s: string, alts: seq<string>, from: nat): (r: Option<WordMatch>)
    ensures r.Some? ==> from <= r.value.pos && AlternativeFrom(s, alts, r.value.pos, 0) == Some(r.value.alt)
    ensures r.Some? ==> forall j | from <= j < r.value.pos :: AlternativeFrom(s, alts, j, 0).None?
    ensures r.None? ==> forall j | from <= j :: AlternativeFrom(s, alts, j, 0).None?
    decreases |s| - from
  {
    if from > |s| then
      NothingPastEnd(s, alts, from);
      None
    else
      match AlternativeFrom(s, alts, from, 0)
      case Some(k) => Some(WordMatch(from, k))
      case None => SearchWords(s, alts, from + 1)
  }

  /** No alternative matches past the end of the text. */
  lemma NothingPastEnd(s: string, alts: seq<string>, from: nat)
    requires from > |s|
    ensures forall j | from <= j :: AlternativeFrom(s, alts, j, 0).None?
  {
    forall j | from <= j ensures AlternativeFrom(s, alts, j, 0).None? {
    }
  }

  /** The upper-cased text of a match. */
  function MatchedText(s: string, alts: seq<string>, m: WordMatch): string
    requires m.alt < |alts| && m.pos + |alts[m.alt]| <= |s|
  {
    Upper(s[m.pos..m.pos + |alts[m.alt]|])
  }

  /**
   * The level patterns tried in order, each searched over the whole line:
   * the upper-cased first severe word, else the upper-cased first warning
   * word, else `UNKNOWN`.
   */
  function ExtractLevel(line: string): string {
    match SearchWords(line, SevereLevels, 0)
    case Some(m) => MatchedText(line, SevereLevels, m)
    case None =>
      match SearchWords(line, WarningLevels, 0)
      case Some(m) => MatchedText(line, WarningLevels, m)
      case None => UnknownLevel
  }

  /** A severe or warning word occurs in `line` as a whole word. */
  ghost predicate HasWord(line: string, alts: seq<string>) {
    exists i, k | 0 <= k < |alts| :: WordAt(line, alts[k], i)
  }

  lemma MatchedTextIsAlternative(s: string, alts: seq<string>, m: WordMatch)
    requires m.alt < |alts| && IsUpperWord(alts[m.alt]) && WordAt(s, alts[m.alt], m.pos)
    ensures MatchedText(s, alts, m) == alts[m.alt]
  {
    SameIgnoringCaseIsLowerEqual(s[m.pos..m.pos + |alts[m.alt]|], alts[m.alt]);
    UpperOfCaseInsensitiveMatch(s[m.pos..m.pos + |alts[m.alt]|], alts[m.alt]);
  }

  /**
   * The level is one of the known words or `UNKNOWN`: a severe word exactly
   * when one occurs in the line, a warning word exactly when no severe word
   * does but a warning word does, and `UNKNOWN` when neither does.
   */
  lemma LevelClassification(line: string)
    ensures ExtractLevel(line) in SevereLevels <==> HasWord(line, SevereLevels)
    ensures ExtractLevel(line) in WarningLevels <==> !HasWord(line, SevereLevels) && HasWord(line, WarningLevels)
    ensures ExtractLevel(line) == UnknownLevel <==> !HasWord(line, SevereLevels) && !HasWord(line, WarningLevels)
  {
    LevelWordsAreUpperWords();
    assert UnknownLevel !in SevereLevels && UnknownLevel !in WarningLevels;
    assert forall w | w in SevereLevels :: w !in WarningLevels;
    match SearchWords(line, SevereLevels, 0)
    case Some(m) =>
      MatchedTextIsAlternative(line, SevereLevels, m);
    case None =>
      NoneMeansNoWord(line, SevereLevels);
      match SearchWords(line, WarningLevels, 0)
      case Some(m) =>
        MatchedTextIsAlternative(line, WarningLevels, m);
      case None =>
        NoneMeansNoWord(line, WarningLevels);
  }

  lemma NoneMeansNoWord(line: string, alts: seq<string>)
    requires SearchWords(line, alts, 0).None?
    ensures !HasWord(line, alts)
  {
    forall i, k | 0 <= k < |alts| ensures !WordAt(line, alts[k], i) {
      assert AlternativeFrom(line, alts, i, 0).None?;
    }
  }

  /**
   * Leftmost wins: when a severe word matches at `p` and no severe word
   * matches anywhere before `p`, the level is the first severe word, in
   * pattern order, matching at `p`.
   */
  lemma SevereLevelIsLeftmost(line: string, p: nat, k: nat)
    requires k < |SevereLevels| && WordAt(line, SevereLevels[k], p)
    requires forall j, k' | 0 <= j < p && 0 <= k' < |SevereLevels| :: !WordAt(line, SevereLevels[k'], j)
    requires forall k' | 0 <= k' < k :: !WordAt(line, SevereLevels[k'], p)
    ensures ExtractLevel(line) == SevereLevels[k]
  {
    var alts := SevereLevels;
    AlternativeFromFirst(line, alts, p, k);
    forall j | 0 <= j < p ensures AlternativeFrom(line, alts, j, 0).None? {
      NoAlternativeAt(line, alts, j);
    }
    SearchWordsFirst(line, alts, p, k);
    LevelWordsAreUpperWords();
    MatchedTextIsAlternative(line, alts, WordMatch(p, k));
  }

  /**
   * The warning pattern is searched only when no severe word occurs at all;
   * then leftmost wins again: the level is the first warning word, in
   * pattern order, matching at the leftmost position where one matches.
   * `WARN` does not match inside `WARNING`, which is therefore the level of
   * a line whose first warning word is `WARNING`.
   */
  lemma WarningLevelIsLeftmost(line: string, p: nat, k: nat)
    requires forall j, k' | 0 <= k' < |SevereLevels| :: !WordAt(line, SevereLevels[k'], j)
    requires k < |WarningLevels| && WordAt(line, WarningLevels[k], p)
    requires forall j, k' | 0 <= j < p && 0 <= k' < |WarningLevels| :: !WordAt(line, WarningLevels[k'], j)
    requires forall k' | 0 <= k' < k :: !WordAt(line, WarningLevels[k'], p)
    ensures ExtractLevel(line) == WarningLevels[k]
  {
    var severe := SevereLevels;
    var alts := WarningLevels;
    var severeMatch := SearchWords(line, severe, 0);
    if severeMatch.Some? {
      NoAlternativeAt(line, severe, severeMatch.value.pos);
    }
    AlternativeFromFirst(line, alts, p, k);
    forall j | 0 <= j < p ensures AlternativeFrom(line, alts, j, 0).None? {
      NoAlternativeAt(line, alts, j);
    }
    SearchWordsFirst(line, alts, p, k);
    LevelWordsAreUpperWords();
    MatchedTextIsAlternative(line, alts, WordMatch(p, k));
  }

  /** Where no alternative matches, `AlternativeFrom` picks none. */
  lemma NoAlternativeAt(s: string, alts: seq<string>, i: nat)
    requires forall k | 0 <= k < |alts| :: !WordAt(s, alts[k], i)
    ensures AlternativeFrom(s, alts, i, 0).None?
  {
  }

  /** The first alternative that matches at `i` is the one `AlternativeFrom` picks. */
  lemma AlternativeFromFirst(s: string, alts: seq<string>, i: nat, k: nat)
    requires k < |alts| && WordAt(s, alts[k], i)
    requires forall k' | 0 <= k' < k :: !WordAt(s, alts[k'], i)
    ensures AlternativeFrom(s, alts, i, 0) == Some(k)
  {
  }

  /** The leftmost index where some alternative matches is where `SearchWords` stops. */
  lemma SearchWordsFirst(s: string, alts: seq<string>, p: nat, k: nat)
    requires AlternativeFrom(s, alts, p, 0) == Some(k)
    requires forall j | 0 <= j < p :: AlternativeFrom(s, alts, j, 0).None?
    ensures SearchWords(s, alts, 0) == Some(WordMatch(p, k))
  {
  }

  /** A word cannot match where the text holds no letter. */
  lemma NoWordAtNonLetter(s: string, w: string, j: nat)
    requires w != [] && IsUpperWord(w)
    requires j < |s| ==> !('a' <= s[j] <= 'z' || 'A' <= s[j] <= 'Z')
    ensures !WordAt(s, w, j)
  {
  }

  // ---------------------------------------------------------------------------
  // message and record

  /** The text after the first literal (case-sensitive) occurrence of `t` in `line`, if any. */
  function AfterFirst(line: string, t: string): (r: Option<string>)
    ensures r.Some? <==> IndexOf(line, t).Some?
    ensures r.Some? ==> IndexOf(line, t).value + |t| <= |line| && r.value == line[IndexOf(line, t).value + |t|..]
  {
    match IndexOf(line, t)
    case Some(i) => Some(line[i + |t|..])
    case None => None
  }

  /**
   * The message before its final strip: if the level occurs literally in the
   * line, the text after its first occurrence with colons and then whitespace
   * stripped; otherwise the whole line.
   */
  function ExtractMessage(line: string, level: string): string {
    match AfterFirst(line, level)
    case Some(rest) => Strip(StripChars(rest, {':'}))
    case None => line
  }

  /** The record's message: the extracted message, stripped once more. */
  function RecordMessage(line: string, level: string): string {
    Strip(ExtractMessage(line, level))
  }

  /** `_extract_error_info`, with the clock readings passed in. */
  function ExtractErrorInfo(line: string, keyword: string, now: string, detectedAt: string): (r: ErrorRecord)
    ensures r.line == Strip(line) && r.matchedKeyword == keyword && r.detectedAt == detectedAt
    ensures IsStripped(r.message) && IsStripped(r.line)
  {
    var level := ExtractLevel(line);
    ErrorRecord(ExtractTimestamp(line, now), level, RecordMessage(line, level), Strip(line), keyword, detectedAt)
  }

  lemma OccursAtTrans(s: string, t: string, u: string, i: nat, j: nat)
    requires OccursAt(s, t, i) && OccursAt(t, u, j)
    ensures OccursAt(s, u, i + j)
  {
    forall k | 0 <= k < |u| ensures s[i + j + k] == u[k] {
      assert u[k] == t[j + k];
      assert t[j + k] == s[i + j + k];
    }
    assert s[i + j..i + j + |u|] == u;
  }

  /** Occurrence is transitive, with the offset left unnamed. */
  lemma OccursWithin(s: string, t: string, u: string, i: nat, j: nat) returns (k: nat)
    requires OccursAt(s, t, i) && OccursAt(t, u, j)
    ensures OccursAt(s, u, k)
  {
    OccursAtTrans(s, t, u, i, j);
    k := i + j;
  }

  /** The colon- and whitespace-stripped rest occurs in the rest. */
  lemma StrippedRestOccurs(rest: string) returns (k: nat)
    ensures OccursAt(rest, Strip(StripChars(rest, {':'})), k)
  {
    var colons := StripChars(rest, {':'});
    var m := Strip(colons);
    var o1 := StripOccurs(rest, {':'});
    var o2 := StripOccurs(colons, Whitespace);
    k := OccursWithin(rest, colons, m, o1, o2);
  }

  /** The message taken from a piece of the line is itself a piece of the line. */
  lemma StrippedRestOccursInLine(line: string, rest: string, i: nat) returns (k: nat)
    requires OccursAt(line, rest, i)
    ensures OccursAt(line, Strip(Strip(StripChars(rest, {':'}))), k)
  {
    var m := Strip(StripChars(rest, {':'}));
    var o := StrippedRestOccurs(rest);
    StripCharsIdempotent(StripChars(rest, {':'}), Whitespace);
    assert Strip(m) == m;
    k := OccursWithin(line, rest, m, i, o);
  }

  /** The record's message is a piece of the line: extraction never invents text. */
  lemma MessageOccursInLine(line: string, level: string) returns (k: nat)
    ensures OccursAt(line, RecordMessage(line, level), k)
  {
    match AfterFirst(line, level)
    case Some(rest) =>
      var i := IndexOf(line, level).value + |level|;
      assert OccursAt(line, rest, i);
      assert RecordMessage(line, level) == Strip(Strip(StripChars(rest, {':'})));
      k := StrippedRestOccursInLine(line, rest, i);
    case None =>
      k := StripOccurs(line, Whitespace);
  }

  /**
   * The message is the text after the first literal occurrence of the level,
   * stripped of colons and then of whitespace.
   */
  lemma MessageFollowsLevel(line: string, level: string, i: nat)
    requires OccursAt(line, level, i)
    requires forall j | 0 <= j < i :: !OccursAt(line, level, j)
    ensures RecordMessage(line, level) == Strip(StripChars(line[i + |level|..], {':'}))
  {
    assert IndexOf(line, level) == Some(i);
    assert AfterFirst(line, level) == Some(line[i + |level|..]);
    StripCharsIdempotent(StripChars(line[i + |level|..], {':'}), Whitespace);
  }

  /** Without a literal occurrence of the level, the message is the whole line, stripped. */
  lemma MessageIsLineWithoutLevel(line: string, level: string)
    requires forall j :: !OccursAt(line, level, j)
    ensures RecordMessage(line, level) == Strip(line)
  {
  }

  // ---------------------------------------------------------------------------
  // a worked line

  const ExampleStamp: string := "2024-01-15 14:30:25"
  const ExampleText: string := "Database connection failed"

  /** The typical application log line `2024-01-15 14:30:25 ERROR: Database connection failed`. */
  function ExampleLine(): string {
    ExampleStamp + " ERROR" + (":" + (" " + ExampleText))
  }

  lemma ExampleTimestamp(now: string)
    ensures ExtractTimestamp(ExampleLine(), now) == ExampleStamp
  {
    var line := ExampleLine();
    assert TimestampAt(line, 0);
    assert line[0..TimestampLength] == ExampleStamp;
  }

  lemma ExampleLevel()
    ensures ExtractLevel(ExampleLine()) == "ERROR"
  {
    var line := ExampleLine();
    assert line[20..25] == "ERROR";
    SameIgnoringCaseRefl("ERROR");
    assert WordAt(line, SevereLevels[0], 20);
    forall j, k' | 0 <= j < 20 && 0 <= k' < |SevereLevels| ensures !WordAt(line, SevereLevels[k'], j) {
      assert j == 19 || line[j] == ExampleStamp[j];
      NoWordAtNonLetter(line, SevereLevels[k'], j);
    }
    SevereLevelIsLeftmost(line, 20, 0);
  }

  /** After `": "`, a message with clean ends comes out whole. */
  lemma ColonSpaceRestStrips(t: string)
    requires t != [] && t[0] !in Whitespace + {':'} && t[|t| - 1] !in Whitespace + {':'}
    ensures Strip(Strip(StripChars(":" + (" " + t), {':'}))) == t
  {
    StripCharsDropsPrefix(":", " " + t, {':'});
    StripCharsOfClean(" " + t, {':'});
    StripCharsDropsPrefix(" ", t, Whitespace);
    StripCharsOfClean(t, Whitespace);
  }

  lemma ExampleLevelIndex()
    ensures IndexOf(ExampleLine(), "ERROR") == Some(20)
  {
    var line := ExampleLine();
    assert line[20..25] == "ERROR";
    assert OccursAt(line, "ERROR", 20);
    forall j | 0 <= j < 20 ensures !OccursAt(line, "ERROR", j) {
      assert line[j] != 'E';
    }
  }

  lemma ExampleTextHasCleanEnds()
    ensures ExampleText != [] && ExampleText[0] !in Whitespace + {':'}
    ensures ExampleText[|ExampleText| - 1] !in Whitespace + {':'}
  {
    assert |ExampleText| == 26 && ExampleText[0] == 'D' && ExampleText[25] == 'd';
  }

  lemma ExampleAfterLevel()
    ensures AfterFirst(ExampleLine(), "ERROR") == Some(":" + (" " + ExampleText))
  {
    ExampleLevelIndex();
    var head := ExampleStamp + " ERROR";
    assert |head| == 25;
  }

  lemma ExampleMessage()
    ensures RecordMessage(ExampleLine(), "ERROR") == ExampleText
  {
    var rest := ":" + (" " + ExampleText);
    ExampleAfterLevel();
    assert ExtractMessage(ExampleLine(), "ERROR") == Strip(StripChars(rest, {':'}));
    ExampleTextHasCleanEnds();
    ColonSpaceRestStrips(ExampleText);
  }

  /**
   * The line `2024-01-15 14:30:25 ERROR: Database connection failed` gives
   * its own timestamp, the level `ERROR` and the message after the colon.
   */
  lemma ExampleDatabaseError(now: string, detectedAt: string)
    ensures var r := ExtractErrorInfo(ExampleLine(), "ERROR", now, detectedAt);
            r.timestamp == ExampleStamp && r.level == "ERROR" && r.message == ExampleText
  {
    ExampleTimestamp(now);
    ExampleLevel();
    ExampleMessage();
  }
}
