/**
 * The log-tail and detection pipeline of `LogFileHandler`: a read offset into
 * a growing log file, reset when the file shrinks; the new text split into
 * non-blank lines in file order; each line checked against an ordered keyword
 * list, first match wins; and a structured record handed to the callback for
 * every matched line.
 *
 * The file is a snapshot passed to each event; the callback is modelled as
 * appending to the `emitted` sequence.
 */
module LogWatcher {
  import opened Wrappers
  import opened Text
  import opened Extraction
  import opened Seqs

  // ---------------------------------------------------------------------------
  // the file and its events

  /**
   * What the handler finds at the watched path: nothing (the size query
   * fails), a file whose size can be read but whose text cannot be opened or
   * decoded, or a readable file of ASCII text whose size is its length.
   */
  datatype FileState = Missing | Unreadable(size: nat) | Readable(content: string)

  /** `_get_file_size`: the file's size, or 0 when it cannot be queried. */
  function FileSize(file: FileState): nat {
    match file
    case Missing => 0
    case Unreadable(n) => n
    case Readable(c) => |c|
  }

  /** A file-system modification event as the watcher delivers it. */
  datatype FileEvent = FileEvent(isDirectory: bool, srcPath: string)

  /** The event is about the watched file itself, not a directory or another file. */
  predicate Concerns(event: FileEvent, path: string) {
    !event.isDirectory && event.srcPath == path
  }

  // ---------------------------------------------------------------------------
  // the offset state machine, as functions of the old offset and the file

  /** The offset after the truncation check: back to 0 when the file shrank below it. */
  function StartPosition(last: nat, size: nat): (r: nat)
    ensures r <= last
    ensures r == last <==> last <= size || last == 0
    ensures size < last ==> r == 0
  {
    if size < last then 0 else last
  }

  /**
   * The offset after an event about the watched file: unchanged (apart from
   * the truncation reset) when the file did not grow past it or could not be
   * opened, otherwise the file's size.
   */
  function NextPosition(last: nat, file: FileState): (r: nat)
    ensures r <= FileSize(file)
    ensures r == FileSize(file) || r == StartPosition(last, FileSize(file))
  {
    var start := StartPosition(last, FileSize(file));
    if FileSize(file) <= start then start
    else if file.Readable? then FileSize(file)
    else start
  }

  /** The text read by an event, before newline translation. */
  function NewContent(last: nat, file: FileState): string {
    var start := StartPosition(last, FileSize(file));
    if file.Readable? && start < FileSize(file) then file.content[start..] else []
  }

  /**
   * What an event reads is a readable file's tail, running from the start
   * offset to the offset the event leaves, and nothing from a file that
   * cannot be read.
   */
  lemma NewContentIsTail(last: nat, file: FileState)
    ensures var r := NewContent(last, file);
            file.Readable? ==> |r| <= |file.content| && r == file.content[|file.content| - |r|..]
    ensures file.Readable? ==> StartPosition(last, FileSize(file)) + |NewContent(last, file)| == NextPosition(last, file)
    ensures !file.Readable? ==> NewContent(last, file) == []
  {
  }

  // ---------------------------------------------------------------------------
  // lines

  /** The pieces that are not blank, in their order. */
  function NonBlank(pieces: seq<string>): (r: seq<string>)
    ensures |r| <= |pieces|
  {
    if pieces == [] then []
    else
      var last := pieces[|pieces| - 1];
      NonBlank(pieces[..|pieces| - 1]) + (if !IsBlank(last) then [last] else [])
  }

  /** The non-blank pieces are exactly the pieces that are not blank. */
  lemma {:induction false} NonBlankMembers(pieces: seq<string>)
    ensures forall p :: p in NonBlank(pieces) <==> p in pieces && !IsBlank(p)
  {
    if pieces != [] {
      var init := pieces[..|pieces| - 1];
      NonBlankMembers(init);
      assert pieces == init + [pieces[|pieces| - 1]];
    }
  }

  /**
   * The lines a delta is cut into: newlines translated as text mode does,
   * stripped, split on `\n`, blank lines dropped.
   */
  function NewLines(delta: string): seq<string> {
    var text := TranslateNewlines(delta);
    if Strip(text) != [] then NonBlank(Split(Strip(text), '\n')) else []
  }

  /** Pieces that are all non-blank are all kept. */
  lemma {:induction false} NonBlankKeepsNonBlank(pieces: seq<string>)
    requires forall p | p in pieces :: !IsBlank(p)
    ensures NonBlank(pieces) == pieces
  {
    if pieces != [] {
      var init := pieces[..|pieces| - 1];
      var last := pieces[|pieces| - 1];
      assert !IsBlank(last) by {
        assert last in pieces;
      }
      forall p | p in init ensures !IsBlank(p) {
        assert p in pieces;
      }
      NonBlankKeepsNonBlank(init);
      assert init + [last] == pieces;
    }
  }

  /**
   * Lines written one after another, separated by `\n`, `\r` or `\r\n`,
   * come back as the same lines, the last one included although no line
   * break ends it.
   */
  lemma NewLinesOfWrittenLines(lines: seq<string>, sep: string)
    requires |lines| >= 1 && IsLineBreak(sep)
    requires forall l | l in lines :: '\n' !in l && '\r' !in l && !IsBlank(l)
    requires lines[0] != [] && lines[0][0] !in Whitespace
    requires lines[|lines| - 1] != [] && lines[|lines| - 1][|lines[|lines| - 1]| - 1] !in Whitespace
    ensures NewLines(Join(lines, sep)) == lines
  {
    TranslateJoin(lines, sep);
    var text := Join(lines, "\n");
    assert lines[0] in lines && lines[|lines| - 1] in lines;
    JoinLast(lines, "\n");
    StripCharsOfClean(text, Whitespace);
    SplitJoin(lines, '\n');
    NonBlankKeepsNonBlank(lines);
  }

  // ---------------------------------------------------------------------------
  // classification

  /** `re.compile(keyword, re.IGNORECASE).search(line)` for a literal keyword. */
  predicate KeywordMatches(line: string, keyword: string) {
    Contains(Lower(line), Lower(keyword))
  }

  /** The index of the first keyword in `keywords[from..]` that occurs in the line. */
  function FirstMatchFrom(line: string, keywords: seq<string>, from: nat): (r: Option<nat>)
    requires from <= |keywords|
    ensures r.Some? ==> from <= r.value < |keywords| && KeywordMatches(line, keywords[r.value])
    ensures r.Some? ==> forall j | from <= j < r.value :: !KeywordMatches(line, keywords[j])
    ensures r.None? ==> forall j | from <= j < |keywords| :: !KeywordMatches(line, keywords[j])
    decreases |keywords| - from
  {
    if from == |keywords| then None
    else if KeywordMatches(line, keywords[from]) then Some(from)
    else FirstMatchFrom(line, keywords, from + 1)
  }

  /** The index of the first keyword, in configured order, that occurs in the line. */
  function FirstMatch(line: string, keywords: seq<string>): Option<nat> {
    FirstMatchFrom(line, keywords, 0)
  }

  /**
   * `_process_log_line` as a value: the record for the line when some keyword
   * matches, carrying the first matching keyword; nothing otherwise.
   */
  function Classify(line: string, keywords: seq<string>, now: string, detectedAt: string): (r: Option<ErrorRecord>)
    ensures r.None? <==> forall k | 0 <= k < |keywords| :: !KeywordMatches(line, keywords[k])
    ensures r.Some? ==> exists k | 0 <= k < |keywords| ::
              && keywords[k] == r.value.matchedKeyword
              && KeywordMatches(line, keywords[k])
              && forall j | 0 <= j < k :: !KeywordMatches(line, keywords[j])
    ensures r.Some? ==> r.value == ExtractErrorInfo(line, r.value.matchedKeyword, now, detectedAt)
    ensures r.Some? ==> r.value.matchedKeyword in keywords
  {
    match FirstMatch(line, keywords)
    case Some(k) => Some(ExtractErrorInfo(line, keywords[k], now, detectedAt))
    case None => None
  }

  /** What the callback receives for one line: the record if there is a callback and a match. */
  function LineRecords(line: string, keywords: seq<string>, hasCallback: bool, now: string, detectedAt: string): (r: seq<ErrorRecord>)
    ensures |r| <= 1
    ensures r != [] <==> hasCallback && Classify(line, keywords, now, detectedAt).Some?
  {
    if hasCallback then
      match Classify(line, keywords, now, detectedAt)
      case Some(rec) => [rec]
      case None => []
    else []
  }

  /** The callback's share of a line whose first matching keyword is the `i`-th: that keyword's record. */
  lemma LineRecordsOfMatch(line: string, keywords: seq<string>, hasCallback: bool, now: string, detectedAt: string,
                           i: nat, rec: ErrorRecord)
    requires i < |keywords| && FirstMatch(line, keywords) == Some(i)
    requires rec == ExtractErrorInfo(line, keywords[i], now, detectedAt)
    ensures hasCallback ==> LineRecords(line, keywords, hasCallback, now, detectedAt) == [rec]
    ensures !hasCallback ==> LineRecords(line, keywords, hasCallback, now, detectedAt) == []
  {
  }

  /** A line no keyword matches gives the callback nothing. */
  lemma LineRecordsOfNoMatch(line: string, keywords: seq<string>, hasCallback: bool, now: string, detectedAt: string)
    requires FirstMatch(line, keywords) == None
    ensures LineRecords(line, keywords, hasCallback, now, detectedAt) == []
  {
  }

  /** What the callback receives for one piece of the split delta: nothing for a blank piece. */
  function PieceRecords(piece: string, keywords: seq<string>, hasCallback: bool, now: string, detectedAt: string): (r: seq<ErrorRecord>)
    ensures |r| <= 1 && (!hasCallback ==> r == [])
    ensures IsBlank(piece) ==> r == []
    ensures !IsBlank(piece) ==> r == LineRecords(piece, keywords, hasCallback, now, detectedAt)
  {
    if !IsBlank(piece) then LineRecords(piece, keywords, hasCallback, now, detectedAt) else []
  }

  /** Elements with no results can be dropped beforehand. */
  lemma {:induction false} FlatMapOfNonBlank<B>(pieces: seq<string>, f: string -> seq<B>)
    requires forall p | p in pieces && IsBlank(p) :: f(p) == []
    ensures FlatMap(NonBlank(pieces), f) == FlatMap(pieces, f)
  {
    if pieces != [] {
      var init := pieces[..|pieces| - 1];
      var last := pieces[|pieces| - 1];
      assert forall p | p in init :: p in pieces;
      FlatMapOfNonBlank(init, f);
      if !IsBlank(last) {
        FlatMapAppend(NonBlank(init), [last], f);
        assert [last][..0] == [];
      } else {
        assert NonBlank(init) + [] == NonBlank(init);
      }
    }
  }

  /** The callback's share of each piece, as a function of the piece. */
  function Recorder(keywords: seq<string>, hasCallback: bool, now: string, detectedAt: string): string -> seq<ErrorRecord> {
    piece => PieceRecords(piece, keywords, hasCallback, now, detectedAt)
  }

  /** The records for a run of pieces, in their order, blank pieces skipped. */
  function Detections(pieces: seq<string>, keywords: seq<string>, hasCallback: bool, now: string, detectedAt: string): (r: seq<ErrorRecord>)
    ensures |r| <= |pieces|
    ensures !hasCallback ==> r == []
  {
    FlatMap(pieces, Recorder(keywords, hasCallback, now, detectedAt))
  }

  /** With an empty keyword list no line is ever reported. */
  lemma NoKeywordsNoDetections(pieces: seq<string>, hasCallback: bool, now: string, detectedAt: string)
    ensures Detections(pieces, [], hasCallback, now, detectedAt) == []
  {
    var f := Recorder([], hasCallback, now, detectedAt);
    forall p | p in pieces ensures f(p) == [] {
      assert FirstMatch(p, []) == None;
    }
  }

  /** Every reported record carries one of the configured keywords. */
  lemma DetectionsCarryConfiguredKeywords(pieces: seq<string>, keywords: seq<string>, hasCallback: bool, now: string, detectedAt: string)
    ensures forall rec | rec in Detections(pieces, keywords, hasCallback, now, detectedAt) :: rec.matchedKeyword in keywords
  {
    var f := Recorder(keywords, hasCallback, now, detectedAt);
    forall rec | rec in Detections(pieces, keywords, hasCallback, now, detectedAt)
      ensures rec.matchedKeyword in keywords
    {
      FlatMapMember(pieces, f, rec);
      var p :| p in pieces && rec in f(p);
      PieceCarriesKeyword(p, keywords, hasCallback, now, detectedAt, rec);
    }
  }

  lemma PieceCarriesKeyword(piece: string, keywords: seq<string>, hasCallback: bool, now: string, detectedAt: string, rec: ErrorRecord)
    requires rec in PieceRecords(piece, keywords, hasCallback, now, detectedAt)
    ensures rec.matchedKeyword in keywords
  {
    var c := Classify(piece, keywords, now, detectedAt);
    assert c.Some? ==> c.value.matchedKeyword in keywords;
  }

  /** One turn of the line loop keeps "emitted so far = records of the pieces so far". */
  lemma DetectionsStep(start: seq<ErrorRecord>, mid: seq<ErrorRecord>, next: seq<ErrorRecord>,
                       done: seq<string>, piece: string, upTo: seq<string>,
                       keywords: seq<string>, hasCallback: bool, now: string, detectedAt: string)
    requires upTo == done + [piece]
    requires mid == start + Detections(done, keywords, hasCallback, now, detectedAt)
    requires IsBlank(piece) ==> next == mid
    requires !IsBlank(piece) ==> next == mid + LineRecords(piece, keywords, hasCallback, now, detectedAt)
    ensures next == start + Detections(upTo, keywords, hasCallback, now, detectedAt)
  {
    var f := Recorder(keywords, hasCallback, now, detectedAt);
    assert upTo[..|upTo| - 1] == done;
    assert mid + [] == mid;
    AppendAssoc(start, Detections(done, keywords, hasCallback, now, detectedAt), f(piece));
  }

  /** What the callback receives for a piece of new text, read with newlines translated: nothing when it is blank. */
  function DeltaRecords(delta: string, keywords: seq<string>, hasCallback: bool, now: string, detectedAt: string): seq<ErrorRecord> {
    var text := TranslateNewlines(delta);
    if Strip(text) != [] then Detections(Split(Strip(text), '\n'), keywords, hasCallback, now, detectedAt) else []
  }

  /** Reading nothing reports nothing. */
  lemma NothingReadNothingReported(keywords: seq<string>, hasCallback: bool, now: string, detectedAt: string)
    ensures DeltaRecords([], keywords, hasCallback, now, detectedAt) == []
  {
    assert TranslateNewlines([]) == [];
    assert Strip([]) == [];
  }

  /** Everything the callback receives during one event about the watched file. */
  function EventRecords(last: nat, file: FileState, keywords: seq<string>, hasCallback: bool, now: string, detectedAt: string): seq<ErrorRecord> {
    DeltaRecords(NewContent(last, file), keywords, hasCallback, now, detectedAt)
  }

  /** The records of an event are those of the new lines of the text it reads, in order. */
  lemma EventRecordsAreNewLineRecords(last: nat, file: FileState, keywords: seq<string>, hasCallback: bool, now: string, detectedAt: string)
    ensures EventRecords(last, file, keywords, hasCallback, now, detectedAt)
         == Detections(NewLines(NewContent(last, file)), keywords, hasCallback, now, detectedAt)
  {
    var text := TranslateNewlines(NewContent(last, file));
    if Strip(text) != [] {
      FlatMapOfNonBlank(Split(Strip(text), '\n'), Recorder(keywords, hasCallback, now, detectedAt));
    }
  }

  /** Reading from the offset up to the size reads exactly the new content. */
  lemma ReadIsNewContent(file: FileState, last: nat)
    requires file.Readable? && last < FileSize(file)
    ensures file.content[last..FileSize(file)] == NewContent(last, file)
  {
  }

  // ---------------------------------------------------------------------------
  // properties of the offset state machine

  /** An event that finds the file at exactly the offset reads nothing and moves nothing. */
  lemma NoGrowthIsNoOp(last: nat, file: FileState, keywords: seq<string>, hasCallback: bool, now: string, detectedAt: string)
    requires FileSize(file) == last
    ensures NextPosition(last, file) == last
    ensures NewContent(last, file) == []
    ensures EventRecords(last, file, keywords, hasCallback, now, detectedAt) == []
  {
  }

  /**
   * Events are idempotent: a second event that finds the file as the first
   * left it reads nothing, reports nothing and leaves the offset where it is.
   */
  lemma RepeatedEventIsNoOp(last: nat, file: FileState, keywords: seq<string>, hasCallback: bool, now: string, detectedAt: string)
    ensures NextPosition(NextPosition(last, file), file) == NextPosition(last, file)
    ensures NewContent(NextPosition(last, file), file) == []
    ensures EventRecords(NextPosition(last, file), file, keywords, hasCallback, now, detectedAt) == []
  {
  }

  /** When the file has grown, exactly the text past the offset is read and the offset moves to the end. */
  lemma GrowthReadsAppendedText(last: nat, content: string)
    requires last <= |content|
    ensures NewContent(last, Readable(content)) == content[last..]
    ensures NextPosition(last, Readable(content)) == |content|
  {
  }

  /** When the file has shrunk below the offset, it is read again from the start. */
  lemma TruncationRereadsFromStart(last: nat, content: string)
    requires |content| < last
    ensures NewContent(last, Readable(content)) == content
    ensures NextPosition(last, Readable(content)) == |content|
  {
  }

  /** A file that cannot be opened is not read; only the truncation reset applies. */
  lemma UnreadableFileKeepsOffset(last: nat, size: nat)
    ensures NewContent(last, Unreadable(size)) == []
    ensures NextPosition(last, Unreadable(size)) == StartPosition(last, size)
  {
  }

  /** The text read by a run of events, one per snapshot of the file, in order. */
  function ReadTrace(last: nat, snapshots: seq<string>): string
    decreases |snapshots|
  {
    if snapshots == [] then []
    else NewContent(last, Readable(snapshots[0])) + ReadTrace(NextPosition(last, Readable(snapshots[0])), snapshots[1..])
  }

  /** Each snapshot extends the one before it: the file only ever grows by appending. */
  predicate AppendOnly(snapshots: seq<string>) {
    forall i | 0 <= i < |snapshots| - 1 :: snapshots[i] <= snapshots[i + 1]
  }

  /**
   * No loss and no replay: while the file only grows by appending, the
   * events together read exactly the text added after the starting offset,
   * each character once, in order.
   */
  lemma {:induction false} AppendOnlyReadsEverythingOnce(last: nat, snapshots: seq<string>)
    requires snapshots != [] && AppendOnly(snapshots)
    requires last <= |snapshots[0]| <= |snapshots[|snapshots| - 1]|
    ensures ReadTrace(last, snapshots) == snapshots[|snapshots| - 1][last..]
    decreases |snapshots|
  {
    var c := snapshots[0];
    GrowthReadsAppendedText(last, c);
    if |snapshots| == 1 {
      assert ReadTrace(|c|, snapshots[1..]) == [];
    } else {
      var rest := snapshots[1..];
      assert AppendOnly(rest) by {
        forall i | 0 <= i < |rest| - 1 ensures rest[i] <= rest[i + 1] {
          assert rest[i] == snapshots[i + 1] && rest[i + 1] == snapshots[i + 2];
        }
      }
      assert c <= rest[0];
      var final := snapshots[|snapshots| - 1];
      assert final == rest[|rest| - 1];
      PrefixExtends(c, rest);
      PrefixExtends(rest[0], rest);
      AppendOnlyReadsEverythingOnce(|c|, rest);
      assert c[last..] + final[|c|..] == final[last..];
    }
  }

  /** The first snapshot is a prefix of the last one. */
  lemma {:induction false} PrefixExtends(c: string, snapshots: seq<string>)
    requires snapshots != [] && AppendOnly(snapshots) && c <= snapshots[0]
    ensures c <= snapshots[|snapshots| - 1]
    decreases |snapshots|
  {
    if |snapshots| > 1 {
      var rest := snapshots[1..];
      assert AppendOnly(rest) by {
        forall i | 0 <= i < |rest| - 1 ensures rest[i] <= rest[i + 1] {
          assert rest[i] == snapshots[i + 1] && rest[i + 1] == snapshots[i + 2];
        }
      }
      PrefixExtends(c, rest);
    }
  }

  /** An event depends on the old offset only through the truncation check. */
  lemma EventFromStart(last: nat, file: FileState, keywords: seq<string>, hasCallback: bool, now: string, detectedAt: string)
    ensures NewContent(last, file) == NewContent(StartPosition(last, FileSize(file)), file)
    ensures NextPosition(last, file) == NextPosition(StartPosition(last, FileSize(file)), file)
    ensures EventRecords(last, file, keywords, hasCallback, now, detectedAt)
         == EventRecords(StartPosition(last, FileSize(file)), file, keywords, hasCallback, now, detectedAt)
  {
    assert StartPosition(StartPosition(last, FileSize(file)), FileSize(file)) == StartPosition(last, FileSize(file));
  }

  /** An event on a file that did not grow past the offset reads nothing and keeps the offset. */
  lemma NoGrowthNoEvent(last: nat, file: FileState, keywords: seq<string>, hasCallback: bool, now: string, detectedAt: string)
    requires FileSize(file) <= StartPosition(last, FileSize(file))
    ensures EventRecords(last, file, keywords, hasCallback, now, detectedAt) == []
    ensures NextPosition(last, file) == StartPosition(last, FileSize(file))
  {
    assert NewContent(last, file) == [];
    NothingReadNothingReported(keywords, hasCallback, now, detectedAt);
  }

  // ---------------------------------------------------------------------------
  // the handler

  class LogFileHandler {
    const logFilePath: string
    const errorKeywords: seq<string>
    /** Whether a callback was supplied; without one, matches are found but reported to nobody. */
    const hasCallback: bool
    /** The offset up to which the file has been read. */
    var lastPosition: nat
    /** The records handed to the callback so far, in order. */
    var emitted: seq<ErrorRecord>

    /** Starts at the file's current size, so text already in the file is never reported. */
    constructor(logFilePath: string, errorKeywords: seq<string>, hasCallback: bool, file: FileState)
      ensures this.logFilePath == logFilePath && this.errorKeywords == errorKeywords
      ensures this.hasCallback == hasCallback
      ensures lastPosition == FileSize(file) && emitted == []
    {
      this.logFilePath := logFilePath;
      this.errorKeywords := errorKeywords;
      this.hasCallback := hasCallback;
      lastPosition := FileSize(file);
      emitted := [];
    }

    /** `on_modified`: ignore other paths, reset on truncation, read any growth. */
    method OnModified(event: FileEvent, file: FileState, now: string, detectedAt: string)
      modifies this
      ensures !Concerns(event, logFilePath) ==> lastPosition == old(lastPosition) && emitted == old(emitted)
      ensures Concerns(event, logFilePath) ==>
                && lastPosition == NextPosition(old(lastPosition), file)
                && emitted == old(emitted) + EventRecords(old(lastPosition), file, errorKeywords, hasCallback, now, detectedAt)
    {
      if event.isDirectory || event.srcPath != logFilePath {
        return;
      }
      var currentSize := FileSize(file);
      if currentSize < lastPosition {
        lastPosition := 0;
      }
      ghost var start := lastPosition;
      assert start == StartPosition(old(lastPosition), currentSize);
      if currentSize <= lastPosition {
        NoGrowthNoEvent(old(lastPosition), file, errorKeywords, hasCallback, now, detectedAt);
        assert emitted == old(emitted) + [];
        return;
      }
      ReadNewContent(file, currentSize, now, detectedAt);
      EventFromStart(old(lastPosition), file, errorKeywords, hasCallback, now, detectedAt);
    }

    /**
     * `_read_new_content`: read from the offset to `currentSize`, move the
     * offset there before any line is looked at, then process the non-blank
     * lines in order. A file that cannot be opened leaves the offset alone.
     */
    method ReadNewContent(file: FileState, currentSize: nat, now: string, detectedAt: string)
      requires currentSize == FileSize(file) && lastPosition < currentSize
      modifies this
      ensures file.Readable? ==> lastPosition == currentSize
      ensures !file.Readable? ==> lastPosition == old(lastPosition)
      ensures emitted == old(emitted) + EventRecords(old(lastPosition), file, errorKeywords, hasCallback, now, detectedAt)
    {
      if !file.Readable? {
        UnreadableFileKeepsOffset(lastPosition, currentSize);
        NothingReadNothingReported(errorKeywords, hasCallback, now, detectedAt);
        assert emitted == old(emitted) + [];
        return;
      }
      var raw := file.content[lastPosition..currentSize];
      ReadIsNewContent(file, lastPosition);
      var newContent := TranslateNewlines(raw);
      lastPosition := currentSize;
      var stripped := Strip(newContent);
      if stripped != [] {
        var lines := Split(stripped, '\n');
        ProcessLines(lines, now, detectedAt);
      } else {
        assert emitted == old(emitted) + [];
      }
    }

    /** The loop of `_read_new_content` over the split pieces: each non-blank one, in order, goes to `_process_log_line`. */
    method ProcessLines(lines: seq<string>, now: string, detectedAt: string)
      modifies this`emitted
      ensures emitted == old(emitted) + Detections(lines, errorKeywords, hasCallback, now, detectedAt)
    {
      var i := 0;
      assert lines[..0] == [];
      while i < |lines|
        invariant 0 <= i <= |lines|
        invariant emitted == old(emitted) + Detections(lines[..i], errorKeywords, hasCallback, now, detectedAt)
      {
        var line := lines[i];
        ghost var mid := emitted;
        ghost var done := lines[..i];
        if !IsBlank(line) {
          ProcessLogLine(line, now, detectedAt);
        }
        i := i + 1;
        DetectionsStep(old(emitted), mid, emitted, done, line, lines[..i], errorKeywords, hasCallback, now, detectedAt);
      }
      assert lines[..|lines|] == lines;
    }

    /**
     * `_process_log_line`: on the first keyword, in order, that occurs in the
     * line, hand the line's record to the callback and stop.
     */
    method ProcessLogLine(line: string, now: string, detectedAt: string)
      modifies this`emitted
      ensures emitted == old(emitted) + LineRecords(line, errorKeywords, hasCallback, now, detectedAt)
    {
      var found := FindKeyword(line);
      match found
      case Some(i) =>
        var errorInfo := ExtractErrorInfo(line, errorKeywords[i], now, detectedAt);
        LineRecordsOfMatch(line, errorKeywords, hasCallback, now, detectedAt, i, errorInfo);
        if hasCallback {
          emitted := emitted + [errorInfo];
        }
      case None =>
        LineRecordsOfNoMatch(line, errorKeywords, hasCallback, now, detectedAt);
    }

    /** The keyword loop of `_process_log_line`: the first keyword, in order, that occurs in the line. */
    method FindKeyword(line: string) returns (found: Option<nat>)
      ensures found == FirstMatch(line, errorKeywords)
    {
      var i := 0;
      while i < |errorKeywords|
        invariant 0 <= i <= |errorKeywords|
        invariant FirstMatch(line, errorKeywords) == FirstMatchFrom(line, errorKeywords, i)
      {
        if KeywordMatches(line, errorKeywords[i]) {
          return Some(i);
        }
        i := i + 1;
      }
      return None;
    }
  }
}
