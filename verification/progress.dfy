/** The progress-stream reader `printResponse`: it echoes every line of an
    engine response, keeps only the last one, and classifies that line as an
    error record or not. */
module Progress {
  import opened Errors
  import opened ScanLines

  /** The `errorDetail` object of an error record. */
  datatype ErrorDetail = ErrorDetail(message: string)

  /** The error record `{"error": ..., "errorDetail": {"message": ...}}`. */
  datatype ErrorLine = ErrorLine(error: string, errorDetail: ErrorDetail)

  /** Go's zero value `ErrorLine{}`, which `printResponse` decodes into. */
  const EmptyErrorLine := ErrorLine("", ErrorDetail(""))

  /** `json.Unmarshal` of one line into an `ErrorLine`, left abstract:
      `None` when the line is not valid JSON (Go then leaves the target
      untouched), otherwise the record with absent fields at their zero
      value. */
  type Unmarshal = string -> Option<ErrorLine>

  /** The empty text is not a JSON value, so a faithful decoder rejects it. */
  predicate RejectsEmptyText(unmarshal: Unmarshal)
  {
    unmarshal("") == None
  }

  /** The record `printResponse` inspects after decoding `line`; a decoding
      failure is ignored and leaves the zero value. */
  function Decode(unmarshal: Unmarshal, line: string): ErrorLine
  {
    match unmarshal(line)
    case None => EmptyErrorLine
    case Some(record) => record
  }

  /** The `error` field as seen after decoding: `""` for malformed JSON and
      for records without the field. */
  function ErrorField(unmarshal: Unmarshal, line: string): string
  {
    Decode(unmarshal, line).error
  }

  /** A response body as the scanner delivers it: the lines it yielded before
      `Scan` returned false, and `scanner.Err()` (nil at a clean end of input). */
  datatype Stream = Stream(lines: seq<string>, readError: Option<Error>)

  /** The body text `data` read to its end, split as `bufio.ScanLines` does. */
  function StreamOf(data: string, readError: Option<Error>): Stream
  {
    Stream(Lines(data), readError)
  }

  /** The last line of a stream; `""`, the zero value of `lastLine`, when
      there is none. */
  function LastLine(lines: seq<string>): string
  {
    if |lines| == 0 then "" else lines[|lines| - 1]
  }

  /** What the scanning loop has produced so far: the lines written to the
      output and the line it retains. */
  datatype Scan = Scan(echoed: seq<string>, lastLine: string)

  /** The scanning loop as a fold: each line is echoed and replaces the
      retained one. */
  function Fold(lines: seq<string>, acc: Scan): (r: Scan)
    ensures r.echoed == acc.echoed + lines
    ensures r.lastLine == if |lines| == 0 then acc.lastLine else lines[|lines| - 1]
    decreases |lines|
  {
    if |lines| == 0 then acc
    else
      var r := Fold(lines[1..], Scan(acc.echoed + [lines[0]], lines[0]));
      assert acc.echoed + [lines[0]] + lines[1..] == acc.echoed + lines;
      r
  }

  /** The output of `printResponse`: the echoed lines and the returned error. */
  datatype Response = Response(echoed: seq<string>, err: Option<Error>)

  /** `printResponse`: all lines are echoed in order; a non-empty `error`
      field on the last line is the error, with exactly that text; otherwise
      the scanner's error, if any, is returned. */
  function PrintResponse(unmarshal: Unmarshal, s: Stream): (r: Response)
    ensures r.echoed == s.lines
    ensures ErrorField(unmarshal, LastLine(s.lines)) != "" ==>
              r.err == Some(Signalled(ErrorField(unmarshal, LastLine(s.lines))))
    ensures ErrorField(unmarshal, LastLine(s.lines)) == "" ==> r.err == s.readError
  {
    var scan := Fold(s.lines, Scan([], ""));
    var errLine := Decode(unmarshal, scan.lastLine);
    if errLine.error != "" then Response(scan.echoed, Some(Signalled(errLine.error)))
    else Response(scan.echoed, s.readError)
  }

  /** The reader fails exactly when the last line carries an error signal or
      the scanner reported an error. */
  lemma FailsIff(unmarshal: Unmarshal, s: Stream)
    ensures PrintResponse(unmarshal, s).err.Some? <==>
              ErrorField(unmarshal, LastLine(s.lines)) != "" || s.readError.Some?
  {
  }

  /** Only the last line decides: whatever precedes it does not change the
      verdict. */
  lemma OnlyLastLineDecides(unmarshal: Unmarshal, earlier: seq<string>, line: string, readError: Option<Error>)
    ensures PrintResponse(unmarshal, Stream(earlier + [line], readError)).err
         == PrintResponse(unmarshal, Stream([line], readError)).err
  {
    assert LastLine(earlier + [line]) == line;
  }

  /** An error record followed by a line without an error signal is
      forgotten: the reader returns only the scanner's error, if any. */
  lemma SignalNotLastIsIgnored(unmarshal: Unmarshal, before: seq<string>, signal: string,
                               after: seq<string>, readError: Option<Error>)
    requires ErrorField(unmarshal, signal) != ""
    requires |after| > 0 && ErrorField(unmarshal, after[|after| - 1]) == ""
    ensures PrintResponse(unmarshal, Stream(before + [signal] + after, readError)).err == readError
  {
    var lines := before + [signal] + after;
    assert lines[|lines| - 1] == after[|after| - 1];
  }

  /** A non-empty `error` field X on the last line fails the read with text
      exactly X, and outranks any scanner error. */
  lemma SignalOutranksReadError(unmarshal: Unmarshal, lines: seq<string>, readError: Option<Error>)
    requires ErrorField(unmarshal, LastLine(lines)) != ""
    ensures PrintResponse(unmarshal, Stream(lines, readError)).err.Some?
    ensures Message(PrintResponse(unmarshal, Stream(lines, readError)).err.value)
         == ErrorField(unmarshal, LastLine(lines))
    ensures PrintResponse(unmarshal, Stream(lines, readError))
         == PrintResponse(unmarshal, Stream(lines, None))
  {
  }

  /** An empty stream echoes nothing and decodes the empty `lastLine`, which
      fails silently: only a scanner error can make the read fail. */
  lemma EmptyStream(unmarshal: Unmarshal, readError: Option<Error>)
    requires RejectsEmptyText(unmarshal)
    ensures PrintResponse(unmarshal, Stream([], readError)) == Response([], readError)
  {
  }

  /** A malformed last line is not an error in itself: the decoding error is
      dropped. */
  lemma MalformedLastLine(unmarshal: Unmarshal, s: Stream)
    requires |s.lines| > 0 && unmarshal(s.lines[|s.lines| - 1]) == None
    ensures PrintResponse(unmarshal, s).err == s.readError
  {
  }

  /** On body text, an error record written as the final line and closed by
      a newline is detected with its exact text, whatever lines come before
      it and whether or not it ends in a carriage return. */
  lemma SignalOnFinalTextLine(unmarshal: Unmarshal, pre: string, signal: string, readError: Option<Error>)
    requires Terminated(pre) && '\n' !in signal
    requires ErrorField(unmarshal, DropCR(signal)) != ""
    ensures PrintResponse(unmarshal, StreamOf(pre + signal + "\n", readError)).err
         == Some(Signalled(ErrorField(unmarshal, DropCR(signal))))
  {
    var tail := signal + "\n";
    Regroup(pre, signal, "\n");
    LinesAppend(pre, tail);
    LinesOfClosedLine(signal);
    assert LastLine(Lines(pre) + [DropCR(signal)]) == DropCR(signal);
  }

  /** The same holds when the final line lacks its newline. */
  lemma SignalOnOpenFinalLine(unmarshal: Unmarshal, pre: string, signal: string, readError: Option<Error>)
    requires Terminated(pre) && |signal| > 0 && '\n' !in signal
    requires ErrorField(unmarshal, DropCR(signal)) != ""
    ensures PrintResponse(unmarshal, StreamOf(pre + signal, readError)).err
         == Some(Signalled(ErrorField(unmarshal, DropCR(signal))))
  {
    LinesAppend(pre, signal);
    LinesOfOpenLine(signal);
    assert LastLine(Lines(pre) + [DropCR(signal)]) == DropCR(signal);
  }
}
