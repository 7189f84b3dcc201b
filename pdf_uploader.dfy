/**
 * The PDF uploader's reading of the upload's progress stream: new-line
 * delimited JSON records that arrive in chunks of arbitrary size. The reader
 * keeps the unfinished last line of what it has received in a buffer, skips
 * blank and malformed lines, shows every record as the current progress, and
 * stops at the first "error" or "complete" record.
 *
 * Chunks are text the decoder has already produced, and `JSON.parse` is the
 * parameter `parse`: `None` where it throws, the record otherwise.
 */
module PdfUpload {
  import opened Wrappers
  import opened Text

  /** `UploadProgress`: `type` is whatever string the record carries. */
  datatype UploadProgress = UploadProgress(
    kind: string,
    current: Option<int>,
    total: Option<int>,
    documentId: Option<string>,
    message: Option<string>)

  const RequestFailedMessage := "업로드 요청 실패"
  const UploadErrorMessage := "업로드 중 오류 발생"
  const NetworkErrorMessage := "네트워크 오류가 발생했습니다."
  const PdfOnlyMessage := "PDF 파일만 업로드 가능합니다."

  /**
   * The uploader's state: `isUploading`, `progress`, `error`, how many times
   * `onComplete` has been called and how many times the file input was cleared.
   */
  datatype UploaderView = UploaderView(
    isUploading: bool,
    progress: Option<UploadProgress>,
    error: Option<string>,
    completions: nat,
    inputClears: nat)

  /** What the network delivers: `fetch` throws, a response that is not ok or has no body, or a body read chunk by chunk whose last read either reports `done` or throws. */
  datatype Delivery =
    | FetchThrows
    | Refused
    | Delivered(chunks: seq<string>, readThrows: bool)

  // ---------------------------------------------------------------------------
  // One line
  // ---------------------------------------------------------------------------

  /** The record a line carries: none for a blank line or one `JSON.parse` rejects. */
  function RecordOf(line: string, parse: string -> Option<UploadProgress>): Option<UploadProgress> {
    if Trim(line) == "" then None else parse(line)
  }

  predicate IsTerminal(record: UploadProgress) {
    record.kind == "error" || record.kind == "complete"
  }

  /**
   * The state after an "error" or a "complete" record: the record is the
   * progress, uploading is over and the file input is cleared; an error record
   * sets its message (or the default one) as the error, a complete record calls
   * `onComplete`.
   */
  function Finished(w: UploaderView, record: UploadProgress): UploaderView {
    var w1 := w.(progress := Some(record), isUploading := false, inputClears := w.inputClears + 1);
    if record.kind == "error" then w1.(error := Some(record.message.GetOr(UploadErrorMessage)))
    else w1.(completions := w.completions + 1)
  }

  datatype Progressed = Progressed(view: UploaderView, stopped: bool)

  /** The body of the `for (const line of lines)` loop. */
  function ProcessLine(w: UploaderView, line: string, parse: string -> Option<UploadProgress>): Progressed {
    match RecordOf(line, parse)
    case None => Progressed(w, false)
    case Some(record) =>
      if IsTerminal(record) then Progressed(Finished(w, record), true)
      else Progressed(w.(progress := Some(record)), false)
  }

  /** The lines in order, up to and including the first that stops the upload. */
  function ProcessLines(w: UploaderView, lines: seq<string>, parse: string -> Option<UploadProgress>): Progressed
    decreases |lines|
  {
    if |lines| == 0 then Progressed(w, false)
    else
      var first := ProcessLine(w, lines[0], parse);
      if first.stopped then first else ProcessLines(first.view, lines[1..], parse)
  }

  // ---------------------------------------------------------------------------
  // A reference reading of a block of lines
  // ---------------------------------------------------------------------------

  /** The record of the first line that carries an "error" or "complete" record. */
  function FirstTerminal(lines: seq<string>, parse: string -> Option<UploadProgress>): (r: Option<UploadProgress>)
    ensures r.Some? ==> IsTerminal(r.value)
    decreases |lines|
  {
    if |lines| == 0 then None
    else
      var r := RecordOf(lines[0], parse);
      if r.Some? && IsTerminal(r.value) then r else FirstTerminal(lines[1..], parse)
  }

  /** The record of the last line that carries one. */
  function LastRecord(lines: seq<string>, parse: string -> Option<UploadProgress>): Option<UploadProgress>
    decreases |lines|
  {
    if |lines| == 0 then None
    else
      var r := LastRecord(lines[1..], parse);
      if r.Some? then r else RecordOf(lines[0], parse)
  }

  function Latest(current: Option<UploadProgress>, newer: Option<UploadProgress>): Option<UploadProgress> {
    if newer.Some? then newer else current
  }

  /**
   * A block of lines stops at its first terminal record, and then the state is
   * that record's finished state, whatever came before it; without one, only
   * the progress changes, to the last record of the block.
   */
  lemma ProcessLinesOutcome(w: UploaderView, lines: seq<string>, parse: string -> Option<UploadProgress>)
    ensures var first := FirstTerminal(lines, parse);
      first.Some? ==> ProcessLines(w, lines, parse) == Progressed(Finished(w, first.value), true)
    ensures FirstTerminal(lines, parse).None? ==>
      ProcessLines(w, lines, parse) == Progressed(w.(progress := Latest(w.progress, LastRecord(lines, parse))), false)
  {
    if FirstTerminal(lines, parse).Some? {
      ProcessLinesStops(w, lines, parse);
    } else {
      ProcessLinesRuns(w, lines, parse);
    }
  }

  /** The first line of a block, and what it leaves for the rest. */
  lemma ProcessLinesFirst(w: UploaderView, lines: seq<string>, parse: string -> Option<UploadProgress>)
    requires |lines| > 0
    ensures var r := RecordOf(lines[0], parse);
      && (r.None? ==> ProcessLines(w, lines, parse) == ProcessLines(w, lines[1..], parse))
      && (r.Some? && !IsTerminal(r.value) ==> ProcessLines(w, lines, parse) == ProcessLines(w.(progress := r), lines[1..], parse))
      && (r.Some? && IsTerminal(r.value) ==> ProcessLines(w, lines, parse) == Progressed(Finished(w, r.value), true))
      && (!(r.Some? && IsTerminal(r.value)) ==> FirstTerminal(lines, parse) == FirstTerminal(lines[1..], parse))
      && (r.Some? && IsTerminal(r.value) ==> FirstTerminal(lines, parse) == r)
      && LastRecord(lines, parse) == Latest(r, LastRecord(lines[1..], parse))
  {
  }

  lemma {:induction false} ProcessLinesStops(w: UploaderView, lines: seq<string>, parse: string -> Option<UploadProgress>)
    requires FirstTerminal(lines, parse).Some?
    ensures ProcessLines(w, lines, parse) == Progressed(Finished(w, FirstTerminal(lines, parse).value), true)
    decreases |lines|
  {
    var r := RecordOf(lines[0], parse);
    ProcessLinesFirst(w, lines, parse);
    if r.None? {
      ProcessLinesStops(w, lines[1..], parse);
    } else if !IsTerminal(r.value) {
      var w1 := w.(progress := r);
      ProcessLinesStops(w1, lines[1..], parse);
      assert Finished(w1, FirstTerminal(lines, parse).value) == Finished(w, FirstTerminal(lines, parse).value);
    }
  }

  lemma {:induction false} ProcessLinesRuns(w: UploaderView, lines: seq<string>, parse: string -> Option<UploadProgress>)
    requires FirstTerminal(lines, parse).None?
    ensures ProcessLines(w, lines, parse) == Progressed(w.(progress := Latest(w.progress, LastRecord(lines, parse))), false)
    decreases |lines|
  {
    if |lines| > 0 {
      var r := RecordOf(lines[0], parse);
      ProcessLinesFirst(w, lines, parse);
      if r.None? {
        ProcessLinesRuns(w, lines[1..], parse);
      } else {
        ProcessLinesRuns(w.(progress := r), lines[1..], parse);
      }
    }
  }

  /** Processing a block of lines is processing its two halves in turn, unless the first half stops. */
  lemma {:induction false} ProcessLinesAppend(w: UploaderView, a: seq<string>, b: seq<string>, parse: string -> Option<UploadProgress>)
    ensures ProcessLines(w, a + b, parse)
      == var r := ProcessLines(w, a, parse); if r.stopped then r else ProcessLines(r.view, b, parse)
    decreases |a|
  {
    if |a| == 0 {
      assert a + b == b;
    } else {
      assert (a + b)[0] == a[0];
      assert (a + b)[1..] == a[1..] + b;
      var first := ProcessLine(w, a[0], parse);
      if !first.stopped {
        ProcessLinesAppend(first.view, a[1..], b, parse);
      }
    }
  }

  // ---------------------------------------------------------------------------
  // Chunks and the line buffer
  // ---------------------------------------------------------------------------

  /** The lines of s that a new-line ends: every piece of `s.split("\n")` but the last. */
  function CompleteLines(s: string): seq<string> {
    var pieces := Split(s, '\n');
    pieces[..|pieces| - 1]
  }

  /** The reader's state between two reads: the uploader's state, `buffer`, and whether it has returned. */
  datatype ReadState = ReadState(view: UploaderView, buffer: string, stopped: bool)

  /**
   * One chunk: it is appended to the buffer, the unfinished last line becomes
   * the new buffer, and the finished lines are processed.
   */
  function Feed(st: ReadState, chunk: string, parse: string -> Option<UploadProgress>): ReadState {
    if st.stopped then st
    else
      var text := st.buffer + chunk;
      var r := ProcessLines(st.view, CompleteLines(text), parse);
      ReadState(r.view, LastPiece(text, '\n'), r.stopped)
  }

  function FeedAll(st: ReadState, chunks: seq<string>, parse: string -> Option<UploadProgress>): ReadState
    decreases |chunks|
  {
    if |chunks| == 0 then st
    else Feed(FeedAll(st, chunks[..|chunks| - 1], parse), chunks[|chunks| - 1], parse)
  }

  /** All the text the chunks deliver, in order. */
  function Received(chunks: seq<string>): string
    decreases |chunks|
  {
    if |chunks| == 0 then "" else Received(chunks[..|chunks| - 1]) + chunks[|chunks| - 1]
  }

  /**
   * After a chunk the buffer holds exactly the text after the last new-line of
   * the old buffer and the chunk (all of it when there is none), and it holds
   * no new-line.
   */
  lemma BufferKeepsUnfinishedLine(st: ReadState, chunk: string, parse: string -> Option<UploadProgress>)
    requires !st.stopped
    ensures var text, buffer := st.buffer + chunk, Feed(st, chunk, parse).buffer;
      && '\n' !in buffer
      && |buffer| <= |text| && text[|text| - |buffer|..] == buffer
      && (|buffer| < |text| ==> text[|text| - |buffer| - 1] == '\n')
      && (|buffer| == |text| ==> '\n' !in text)
  {
    LastPieceIsTail(st.buffer + chunk, '\n');
  }

  /** Text without a new-line is all unfinished line. */
  lemma NoCompleteLines(s: string)
    requires '\n' !in s
    ensures CompleteLines(s) == [] && LastPiece(s, '\n') == s
  {
    assert Split(s, '\n') == [s];
  }

  /** A string with a first c after a c-free prefix splits into that prefix and the split of the rest. */
  lemma SplitAtFirst(s: string, p: string, q: string, c: char)
    requires c !in p && s == p + [c] + q
    ensures Split(s, c) == [p] + Split(q, c)
  {
    IndexOfFirst(p, q, c);
    assert s[..|p|] == p;
    assert s[|p| + 1..] == q;
  }

  /** Splitting x + y is splitting x, then splitting its last piece with y appended. */
  lemma {:induction false} SplitAppend(x: string, y: string, c: char)
    ensures var px := Split(x, c);
      Split(x + y, c) == px[..|px| - 1] + Split(LastPiece(x, c) + y, c)
    decreases |x|
  {
    var k := IndexOf(x, c);
    if k >= 0 {
      Around(x, k);
      SplitAppend(x[k + 1..], y, c);
      SplitAppendStep(x, y, c, x[..k], x[k + 1..]);
    } else {
      SplitAppendNone(x, y, c);
    }
  }

  /** The inductive step of SplitAppend: x is a c-free prefix, a c, then the rest q. */
  lemma SplitAppendStep(x: string, y: string, c: char, p: string, q: string)
    requires c !in p && x == p + [c] + q
    requires var sq := Split(q, c);
      Split(q + y, c) == sq[..|sq| - 1] + Split(LastPiece(q, c) + y, c)
    ensures var px := Split(x, c);
      Split(x + y, c) == px[..|px| - 1] + Split(LastPiece(x, c) + y, c)
  {
    SplitAtFirst(x, p, q, c);
    AppendAfterFirst(x, y, p, q, c);
    SplitAtFirst(x + y, p, q + y, c);
    LastPieceOfCons(x, q, c, p);
    Regroup(p, Split(x, c), Split(q, c), Split(x + y, c), Split(q + y, c), Split(LastPiece(q, c) + y, c));
  }

  lemma AppendAfterFirst(x: string, y: string, p: string, q: string, c: char)
    requires x == p + [c] + q
    ensures x + y == p + [c] + (q + y)
  {
  }

  lemma LastPieceOfCons(x: string, q: string, c: char, p: string)
    requires Split(x, c) == [p] + Split(q, c)
    ensures LastPiece(x, c) == LastPiece(q, c)
  {
    var sx, sq := Split(x, c), Split(q, c);
    assert sx[|sx| - 1] == sq[|sq| - 1];
  }

  /** The list arithmetic that closes the inductive step of SplitAppend. */
  lemma Regroup<T>(p: T, sx: seq<T>, sq: seq<T>, sxy: seq<T>, sqy: seq<T>, tail: seq<T>)
    requires |sq| > 0 && sx == [p] + sq && sxy == [p] + sqy && sqy == sq[..|sq| - 1] + tail
    ensures sxy == sx[..|sx| - 1] + tail
  {
    assert sx[..|sx| - 1] == [p] + sq[..|sq| - 1];
  }

  /** The base case of SplitAppend: x holds no c. */
  lemma SplitAppendNone(x: string, y: string, c: char)
    requires IndexOf(x, c) < 0
    ensures var px := Split(x, c);
      Split(x + y, c) == px[..|px| - 1] + Split(LastPiece(x, c) + y, c)
  {
    var sx := Split(x, c);
    assert sx == [x];
    assert sx[..|sx| - 1] == [];
    assert LastPiece(x, c) == x;
  }

  /** The finished lines of x + y are those of x, then those of x's unfinished line with y appended. */
  lemma CompleteLinesAppend(x: string, y: string)
    ensures CompleteLines(x + y) == CompleteLines(x) + CompleteLines(LastPiece(x, '\n') + y)
    ensures LastPiece(x + y, '\n') == LastPiece(LastPiece(x, '\n') + y, '\n')
  {
    SplitAppend(x, y, '\n');
    var px := Split(x, '\n');
    var a := px[..|px| - 1];
    var s := Split(LastPiece(x, '\n') + y, '\n');
    var xy := Split(x + y, '\n');
    assert xy == a + s;
    assert xy[..|xy| - 1] == a + s[..|s| - 1];
    assert xy[|xy| - 1] == s[|s| - 1];
  }

  /** Two states that agree on what the reader has done and, while it reads on, on the buffer. */
  predicate SameOutcome(s: ReadState, t: ReadState) {
    s.view == t.view && s.stopped == t.stopped && (!s.stopped ==> s.buffer == t.buffer)
  }

  /** Two chunks in a row are read as their concatenation. */
  lemma FeedTwice(st: ReadState, a: string, b: string, parse: string -> Option<UploadProgress>)
    ensures SameOutcome(Feed(Feed(st, a, parse), b, parse), Feed(st, a + b, parse))
  {
    if !st.stopped {
      var x := st.buffer + a;
      assert st.buffer + (a + b) == x + b;
      CompleteLinesAppend(x, b);
      ProcessLinesAppend(st.view, CompleteLines(x), CompleteLines(LastPiece(x, '\n') + b), parse);
    }
  }

  lemma FeedSameOutcome(s: ReadState, t: ReadState, chunk: string, parse: string -> Option<UploadProgress>)
    requires SameOutcome(s, t)
    ensures SameOutcome(Feed(s, chunk, parse), Feed(t, chunk, parse))
  {
    if !s.stopped {
      assert s == t;
    }
  }

  /**
   * How the response is cut into chunks does not matter: reading the chunks one
   * by one ends as reading all the received text at once.
   */
  lemma {:induction false} FeedAllIsFeedReceived(st: ReadState, chunks: seq<string>, parse: string -> Option<UploadProgress>)
    requires !st.stopped && '\n' !in st.buffer
    ensures SameOutcome(FeedAll(st, chunks, parse), Feed(st, Received(chunks), parse))
    decreases |chunks|
  {
    if |chunks| == 0 {
      assert st.buffer + "" == st.buffer;
      NoCompleteLines(st.buffer);
    } else {
      var n := |chunks|;
      var init := chunks[..n - 1];
      FeedAllIsFeedReceived(st, init, parse);
      FeedSameOutcome(FeedAll(st, init, parse), Feed(st, Received(init), parse), chunks[n - 1], parse);
      FeedTwice(st, Received(init), chunks[n - 1], parse);
    }
  }

  /** Once the reader has returned, later chunks change nothing. */
  lemma {:induction false} FeedAllStaysStopped(st: ReadState, chunks: seq<string>, i: nat, parse: string -> Option<UploadProgress>)
    requires i <= |chunks| && FeedAll(st, chunks[..i], parse).stopped
    ensures FeedAll(st, chunks, parse) == FeedAll(st, chunks[..i], parse)
    decreases |chunks|
  {
    if i < |chunks| {
      var n := |chunks|;
      var before := chunks[..n - 1];
      assert before[..i] == chunks[..i];
      FeedAllStaysStopped(st, before, i, parse);
      var w := FeedAll(st, before, parse);
      assert w.stopped;
      assert FeedAll(st, chunks, parse) == Feed(w, chunks[n - 1], parse);
    } else {
      assert chunks[..i] == chunks;
    }
  }

  // ---------------------------------------------------------------------------
  // `handleUpload`
  // ---------------------------------------------------------------------------

  /** The start of `handleUpload`: uploading, with no progress and no error. */
  function Started(v: UploaderView): UploaderView {
    v.(isUploading := true, progress := None, error := None)
  }

  /** The `catch` around the request and the reads. */
  function NetworkFailure(w: UploaderView): UploaderView {
    w.(error := Some(NetworkErrorMessage), isUploading := false, inputClears := w.inputClears + 1)
  }

  /** The state `handleUpload` leaves behind. */
  function Upload(v: UploaderView, delivery: Delivery, parse: string -> Option<UploadProgress>): UploaderView {
    var w := Started(v);
    match delivery
    case FetchThrows => NetworkFailure(w)
    case Refused => w.(error := Some(RequestFailedMessage), isUploading := false)
    case Delivered(chunks, readThrows) =>
      var st := FeedAll(ReadState(w, "", false), chunks, parse);
      if readThrows && !st.stopped then NetworkFailure(st.view) else st.view
  }

  /** The finished lines of everything received, read in one go. */
  lemma UploadReadsCompleteLines(v: UploaderView, chunks: seq<string>, readThrows: bool, parse: string -> Option<UploadProgress>)
    ensures Upload(v, Delivered(chunks, readThrows), parse)
      == var r := ProcessLines(Started(v), CompleteLines(Received(chunks)), parse);
         if readThrows && !r.stopped then NetworkFailure(r.view) else r.view
  {
    var st := ReadState(Started(v), "", false);
    FeedAllIsFeedReceived(st, chunks, parse);
    assert "" + Received(chunks) == Received(chunks);
  }

  /**
   * The whole upload: the first "error" or "complete" record among the finished
   * lines decides it; without one the progress is the last record received, and
   * the upload is still running unless the last read threw.
   */
  lemma UploadOutcome(v: UploaderView, chunks: seq<string>, readThrows: bool, parse: string -> Option<UploadProgress>)
    ensures var lines := CompleteLines(Received(chunks));
      Upload(v, Delivered(chunks, readThrows), parse) == match FirstTerminal(lines, parse)
        case Some(record) => Finished(Started(v), record)
        case None =>
          var w := Started(v).(progress := LastRecord(lines, parse));
          if readThrows then NetworkFailure(w) else w
  {
    UploadReadsCompleteLines(v, chunks, readThrows, parse);
    ProcessLinesOutcome(Started(v), CompleteLines(Received(chunks)), parse);
  }

  /**
   * `onComplete` is called at most once per upload, and only when the upload
   * ended with a "complete" record: not uploading, no error.
   */
  lemma OnCompleteAtMostOnce(v: UploaderView, delivery: Delivery, parse: string -> Option<UploadProgress>)
    ensures Upload(v, delivery, parse).completions <= v.completions + 1
    ensures var u := Upload(v, delivery, parse);
      u.completions == v.completions + 1 ==>
        && !u.isUploading && u.error.None?
        && u.progress.Some? && u.progress.value.kind == "complete"
  {
    if delivery.Delivered? {
      UploadOutcome(v, delivery.chunks, delivery.readThrows, parse);
    }
  }

  /**
   * The uploader still shows an upload in progress after `handleUpload` has
   * returned exactly when the stream ended normally without an "error" or
   * "complete" record.
   */
  lemma StillUploadingIffUnfinished(v: UploaderView, chunks: seq<string>, readThrows: bool, parse: string -> Option<UploadProgress>)
    ensures Upload(v, Delivered(chunks, readThrows), parse).isUploading
      <==> FirstTerminal(CompleteLines(Received(chunks)), parse).None? && !readThrows
  {
    UploadOutcome(v, chunks, readThrows, parse);
  }

  /** An "error" record ends the upload with its message, or the default one, and without `onComplete`. */
  lemma ErrorRecordEndsUpload(v: UploaderView, chunks: seq<string>, readThrows: bool, parse: string -> Option<UploadProgress>, record: UploadProgress)
    requires FirstTerminal(CompleteLines(Received(chunks)), parse) == Some(record) && record.kind == "error"
    ensures var u := Upload(v, Delivered(chunks, readThrows), parse);
      && u.error == Some(record.message.GetOr(UploadErrorMessage))
      && !u.isUploading && u.completions == v.completions && u.progress == Some(record)
  {
    UploadOutcome(v, chunks, readThrows, parse);
  }

  /** Text after the last new-line when the stream ends is never parsed. */
  lemma TrailingTextIsNeverParsed(v: UploaderView, chunks: seq<string>, tail: string, readThrows: bool, parse: string -> Option<UploadProgress>)
    requires '\n' !in tail
    ensures Upload(v, Delivered(chunks + [tail], readThrows), parse) == Upload(v, Delivered(chunks, readThrows), parse)
  {
    var all := chunks + [tail];
    assert all[..|all| - 1] == chunks;
    var text := Received(chunks);
    assert Received(all) == text + tail;
    CompleteLinesAppend(text, tail);
    LastPieceIsTail(text, '\n');
    assert '\n' !in LastPiece(text, '\n') + tail;
    NoCompleteLines(LastPiece(text, '\n') + tail);
    assert CompleteLines(text + tail) == CompleteLines(text);
    UploadReadsCompleteLines(v, all, readThrows, parse);
    UploadReadsCompleteLines(v, chunks, readThrows, parse);
  }

  /** A refused request reads nothing: the request error, and no progress. */
  lemma RefusedReadsNothing(v: UploaderView, parse: string -> Option<UploadProgress>)
    ensures var u := Upload(v, Refused, parse);
      && u.error == Some(RequestFailedMessage) && !u.isUploading && u.progress.None?
      && u.completions == v.completions && u.inputClears == v.inputClears
  {
  }

  predicate EndsWith(s: string, suffix: string) {
    |suffix| <= |s| && s[|s| - |suffix|..] == suffix
  }

  /** The uploader component's state. */
  class PdfUploader {
    var isUploading: bool
    var progress: Option<UploadProgress>
    var error: Option<string>
    /** How many times `onComplete` was called. */
    var completions: nat
    /** How many times `fileInputRef.current.value` was cleared. */
    var inputClears: nat

    function View(): UploaderView
      reads this
    {
      UploaderView(isUploading, progress, error, completions, inputClears)
    }

    constructor()
      ensures View() == UploaderView(false, None, None, 0, 0)
    {
      isUploading := false;
      progress := None;
      error := None;
      completions := 0;
      inputClears := 0;
    }

    /** The body of the `for (const line of lines)` loop; `stopped` is its early `return`. */
    method ProcessLineOf(line: string, parse: string -> Option<UploadProgress>) returns (stopped: bool)
      modifies this
      ensures Progressed(View(), stopped) == ProcessLine(old(View()), line, parse)
    {
      stopped := false;
      if Trim(line) != "" {
        var data := parse(line);
        if data.Some? {
          progress := data;
          if data.value.kind == "error" {
            error := Some(data.value.message.GetOr(UploadErrorMessage));
            isUploading := false;
            inputClears := inputClears + 1;
            return true;
          }
          if data.value.kind == "complete" {
            isUploading := false;
            inputClears := inputClears + 1;
            completions := completions + 1;
            return true;
          }
        }
      }
    }

    /** The `for (const line of lines)` loop. */
    method ProcessChunkLines(lines: seq<string>, parse: string -> Option<UploadProgress>) returns (stopped: bool)
      modifies this
      ensures Progressed(View(), stopped) == ProcessLines(old(View()), lines, parse)
    {
      ghost var w := View();
      for k := 0 to |lines|
        invariant ProcessLines(w, lines, parse) == ProcessLines(View(), lines[k..], parse)
      {
        assert lines[k..][0] == lines[k] && lines[k..][1..] == lines[k + 1..];
        stopped := ProcessLineOf(lines[k], parse);
        if stopped {
          return;
        }
      }
      assert lines[|lines|..] == [];
      return false;
    }

    /** `handleUpload(file)`, with what the network delivers for the request. */
    method HandleUpload(delivery: Delivery, parse: string -> Option<UploadProgress>)
      modifies this
      ensures View() == Upload(old(View()), delivery, parse)
    {
      isUploading := true;
      progress := None;
      error := None;
      match delivery {
        case FetchThrows =>
          error := Some(NetworkErrorMessage);
          isUploading := false;
          inputClears := inputClears + 1;
        case Refused =>
          error := Some(RequestFailedMessage);
          isUploading := false;
        case Delivered(chunks, readThrows) =>
          var stopped := ReadBody(chunks, parse);
          if readThrows && !stopped {
            error := Some(NetworkErrorMessage);
            isUploading := false;
            inputClears := inputClears + 1;
          }
      }
    }

    /** The `while (true)` read loop: `stopped` is its early `return`, otherwise the stream reported `done`. */
    method ReadBody(chunks: seq<string>, parse: string -> Option<UploadProgress>) returns (stopped: bool)
      modifies this
      ensures var st := FeedAll(ReadState(old(View()), "", false), chunks, parse);
        View() == st.view && stopped == st.stopped
    {
      ghost var start := ReadState(View(), "", false);
      var buffer := "";
      var i := 0;
      while i < |chunks|
        invariant i <= |chunks|
        invariant FeedAll(start, chunks[..i], parse) == ReadState(View(), buffer, false)
      {
        assert chunks[..i + 1][..i] == chunks[..i];
        buffer, stopped := ReadChunk(buffer, chunks[i], parse);
        if stopped {
          FeedAllStaysStopped(start, chunks, i + 1, parse);
          return;
        }
        i := i + 1;
      }
      assert chunks[..i] == chunks;
      return false;
    }

    /** One chunk: `buffer += chunk`, the split, `buffer = lines.pop()`, then the finished lines. */
    method ReadChunk(buffer: string, chunk: string, parse: string -> Option<UploadProgress>) returns (rest: string, stopped: bool)
      modifies this
      ensures ReadState(View(), rest, stopped) == Feed(ReadState(old(View()), buffer, false), chunk, parse)
    {
      var lines := Split(buffer + chunk, '\n');
      rest := lines[|lines| - 1];
      assert rest == LastPiece(buffer + chunk, '\n');
      assert lines[..|lines| - 1] == CompleteLines(buffer + chunk);
      stopped := ProcessChunkLines(lines[..|lines| - 1], parse);
    }

    /** `handleDrop`: only a file whose name ends in ".pdf" is uploaded. */
    method HandleDrop(fileName: Option<string>, delivery: Delivery, parse: string -> Option<UploadProgress>)
      modifies this
      ensures fileName.Some? && EndsWith(fileName.value, ".pdf") ==> View() == Upload(old(View()), delivery, parse)
      ensures !(fileName.Some? && EndsWith(fileName.value, ".pdf")) ==> View() == old(View()).(error := Some(PdfOnlyMessage))
    {
      if fileName.Some? && EndsWith(fileName.value, ".pdf") {
        HandleUpload(delivery, parse);
      } else {
        error := Some(PdfOnlyMessage);
      }
    }
  }
}
