/** The line splitting of Go's `bufio.ScanLines`, which the progress reader's
    `bufio.Scanner` uses by default: a line ends at `'\n'`, one `'\r'` just
    before it is dropped, and a final line without `'\n'` is still a line. */
module ScanLines {
  import opened Strings

  /** Drops one trailing carriage return. */
  function DropCR(line: string): string
  {
    if |line| > 0 && line[|line| - 1] == '\r' then line[..|line| - 1] else line
  }

  /** The tokens the scanner yields from `data`, in order. */
  function Lines(data: string): (r: seq<string>)
    ensures |r| == 0 <==> |data| == 0
    decreases |data|
  {
    if |data| == 0 then []
    else
      var i := IndexOf(data, '\n');
      if i < |data| then [DropCR(data[..i])] + Lines(data[i + 1..])
      else [DropCR(data)]
  }

  /** Text that is empty or ends with a newline: no line is left open. */
  predicate Terminated(data: string)
  {
    |data| == 0 || data[|data| - 1] == '\n'
  }

  /** A string the scanner can hand back unchanged: no newline, and no
      carriage return at its end for `DropCR` to take away. */
  predicate IsLine(line: string)
  {
    '\n' !in line && (|line| == 0 || line[|line| - 1] != '\r')
  }

  /** Every element is a line the scanner can hand back unchanged. */
  predicate AllLines(lines: seq<string>)
  {
    forall k :: 0 <= k < |lines| ==> IsLine(lines[k])
  }

  /** Dropping the first element keeps `AllLines`. */
  lemma AllLinesTail(lines: seq<string>)
    requires |lines| > 0 && AllLines(lines)
    ensures AllLines(lines[1..])
  {
    forall k | 0 <= k < |lines| - 1 ensures IsLine(lines[1..][k]) {
      assert lines[1..][k] == lines[k + 1];
    }
  }

  /** Writes each line followed by a newline. */
  function Join(lines: seq<string>): (r: string)
    ensures Terminated(r)
    ensures |lines| == 0 <==> |r| == 0
    decreases |lines|
  {
    if |lines| == 0 then ""
    else lines[0] + "\n" + Join(lines[1..])
  }

  /** Scanning `line` + newline + `rest` yields `line` less a trailing
      carriage return, then the lines of `rest`. */
  lemma LinesOfConsAny(line: string, rest: string)
    requires '\n' !in line
    ensures Lines(line + "\n" + rest) == [DropCR(line)] + Lines(rest)
  {
    var data := line + "\n" + rest;
    assert data[..|line|] == line;
    IndexOfAt(data, '\n', |line|);
    assert data[|line| + 1..] == rest;
  }

  /** Scanning `line` + newline + `rest` yields `line`, then the lines of `rest`. */
  lemma LinesOfCons(line: string, rest: string)
    requires IsLine(line)
    ensures Lines(line + "\n" + rest) == [line] + Lines(rest)
  {
    LinesOfConsAny(line, rest);
  }

  /** Text without a newline is scanned as one token, or none when empty. */
  lemma LinesOfOpenLine(line: string)
    requires '\n' !in line
    ensures Lines(line) == if |line| == 0 then [] else [DropCR(line)]
  {
  }

  /** A line closed by a newline is scanned as one token. */
  lemma LinesOfClosedLine(line: string)
    requires '\n' !in line
    ensures Lines(line + "\n") == [DropCR(line)]
  {
    LinesOfConsAny(line, "");
    assert line + "\n" + "" == line + "\n";
  }

  /** After newline-terminated text, the scanner starts afresh: the tokens of
      `pre + post` are those of `pre`, then those of `post`. */
  lemma {:induction false} LinesAppend(pre: string, post: string)
    requires Terminated(pre)
    ensures Lines(pre + post) == Lines(pre) + Lines(post)
    decreases |pre|
  {
    if |pre| == 0 {
      assert pre + post == post;
    } else {
      var line, rest := SplitTerminated(pre);
      LinesAppend(rest, post);
      LinesAppendStep(line, rest, post);
    }
  }

  /** Non-empty terminated text is a first line, a newline, and terminated
      text after it. */
  lemma SplitTerminated(pre: string) returns (line: string, rest: string)
    requires Terminated(pre) && |pre| > 0
    ensures pre == line + "\n" + rest && '\n' !in line
    ensures Terminated(rest) && |rest| < |pre|
  {
    var i := IndexOf(pre, '\n');
    assert i < |pre| by {
      assert pre[|pre| - 1] == '\n';
    }
    line, rest := pre[..i], pre[i + 1..];
    SplitAtNewline(pre, i);
    NoneBeforeIndexOf(pre, '\n');
    assert Terminated(rest) by {
      if |rest| > 0 { assert rest[|rest| - 1] == pre[|pre| - 1]; }
    }
  }

  /** The step of `LinesAppend`: one more line in front of both sides. */
  lemma LinesAppendStep(line: string, rest: string, post: string)
    requires '\n' !in line
    requires Lines(rest + post) == Lines(rest) + Lines(post)
    ensures Lines(line + "\n" + rest + post) == Lines(line + "\n" + rest) + Lines(post)
  {
    Regroup(line + "\n", rest, post);
    LinesOfConsAny(line, rest + post);
    LinesOfConsAny(line, rest);
    Regroup([DropCR(line)], Lines(rest), Lines(post));
  }

  /** Concatenation regroups. */
  lemma Regroup<T>(a: seq<T>, b: seq<T>, c: seq<T>)
    ensures a + b + c == a + (b + c)
  {
  }

  /** Scanning what `Join` wrote gives back the lines, one token each. */
  lemma {:induction false} LinesOfJoin(lines: seq<string>)
    requires AllLines(lines)
    ensures Lines(Join(lines)) == lines
    decreases |lines|
  {
    if |lines| > 0 {
      var rest := lines[1..];
      LinesOfCons(lines[0], Join(rest));
      AllLinesTail(lines);
      LinesOfJoin(rest);
      assert lines == [lines[0]] + rest;
    }
  }

  /** The scanner's first step on text with a newline at `i`: one token
      before it, then the tokens of the text after it. */
  lemma FirstLine(data: string, i: nat)
    requires i < |data| && i == IndexOf(data, '\n')
    ensures Lines(data) == [DropCR(data[..i])] + Lines(data[i + 1..])
    ensures data == data[..i] + "\n" + data[i + 1..]
  {
    SplitAtNewline(data, i);
  }

  /** Text with a newline at `i` is what comes before, the newline, and what comes after. */
  lemma SplitAtNewline(data: string, i: nat)
    requires i < |data| && data[i] == '\n'
    ensures data == data[..i] + "\n" + data[i + 1..]
  {
    assert data == data[..i] + [data[i]] + data[i + 1..];
  }

  /** No token contains a newline. */
  lemma {:induction false} LinesHaveNoNewline(data: string)
    ensures forall k :: 0 <= k < |Lines(data)| ==> '\n' !in Lines(data)[k]
    decreases |data|
  {
    if |data| > 0 {
      var i := IndexOf(data, '\n');
      if i < |data| {
        FirstLine(data, i);
        LinesHaveNoNewline(data[i + 1..]);
        AbsentBeforeIndex(data, i);
      } else {
        assert Lines(data) == [DropCR(data)];
      }
    }
  }

  /** The token before the first newline has no newline. */
  lemma AbsentBeforeIndex(data: string, i: nat)
    requires i <= |data| && i == IndexOf(data, '\n')
    ensures '\n' !in DropCR(data[..i])
  {
    var line := data[..i];
    NoneBeforeIndexOf(data, '\n');
    if |line| > 0 {
      AbsentFromSlice(line, '\n', 0, |line| - 1);
    }
  }

  /** No newline directly follows a carriage return: `DropCR` never has
      anything to take away. */
  predicate NoCRBeforeNewline(data: string)
  {
    forall k :: 0 < k < |data| && data[k] == '\n' ==> data[k - 1] != '\r'
  }

  /** Terminated text with no carriage return directly before a newline is
      exactly its lines, each followed by a newline. */
  lemma {:induction false} JoinOfLines(data: string)
    requires NoCRBeforeNewline(data)
    requires Terminated(data)
    ensures Join(Lines(data)) == data
    decreases |data|
  {
    if |data| > 0 {
      var i := IndexOf(data, '\n');
      assert i < |data| by {
        assert data[|data| - 1] == '\n';
      }
      var line, rest := data[..i], data[i + 1..];
      FirstLine(data, i);
      assert DropCR(line) == line by {
        if i > 0 { assert line[i - 1] == data[i - 1]; }
      }
      assert NoCRBeforeNewline(rest) by {
        forall k | 0 < k < |rest| && rest[k] == '\n'
          ensures rest[k - 1] != '\r'
        {
          assert rest[k] == data[i + 1 + k] && rest[k - 1] == data[i + k];
        }
      }
      assert Terminated(rest) by {
        if |rest| > 0 { assert rest[|rest| - 1] == data[|data| - 1]; }
      }
      JoinOfLines(rest);
    }
  }

  /** An unterminated final line is still scanned as a line. */
  lemma {:induction false} LinesOfOpenTail(lines: seq<string>, tail: string)
    requires AllLines(lines)
    requires |tail| > 0 && '\n' !in tail
    ensures Lines(Join(lines) + tail) == lines + [DropCR(tail)]
    decreases |lines|
  {
    if |lines| == 0 {
      assert Join(lines) + tail == tail;
      assert IndexOf(tail, '\n') == |tail|;
    } else {
      var rest := lines[1..];
      assert Join(lines) + tail == lines[0] + "\n" + (Join(rest) + tail);
      LinesOfCons(lines[0], Join(rest) + tail);
      AllLinesTail(lines);
      LinesOfOpenTail(rest, tail);
      var last := [DropCR(tail)];
      assert lines == [lines[0]] + rest;
      assert lines + last == [lines[0]] + (rest + last);
    }
  }

  /** One token per newline, plus one for an unterminated final line. */
  lemma {:induction false} LineCount(data: string)
    ensures |Lines(data)| == Count(data, '\n') + (if Terminated(data) then 0 else 1)
    decreases |data|
  {
    if |data| > 0 {
      var i := IndexOf(data, '\n');
      if i < |data| {
        CountSplit(data, i);
        LineCount(data[i + 1..]);
        if |data[i + 1..]| == 0 {
          assert Terminated(data);
        } else {
          assert data[i + 1..][|data[i + 1..]| - 1] == data[|data| - 1];
        }
      } else {
        assert !Terminated(data);
      }
    }
  }

  /** Counting across the first newline at position `i`. */
  lemma {:induction false} CountSplit(data: string, i: nat)
    requires i < |data| && data[i] == '\n'
    requires forall j :: 0 <= j < i ==> data[j] != '\n'
    ensures Count(data, '\n') == 1 + Count(data[i + 1..], '\n')
    decreases i
  {
    if i > 0 {
      CountSplit(data[1..], i - 1);
      assert data[1..][i..] == data[i + 1..];
    }
  }

  /** Appending one line to joined text. */
  lemma {:induction false} JoinSnoc(lines: seq<string>, line: string)
    ensures Join(lines + [line]) == Join(lines) + line + "\n"
    decreases |lines|
  {
    if |lines| == 0 {
      assert lines + [line] == [line];
      assert Join([line]) == line + "\n" + Join([]);
    } else {
      var tail := lines[1..];
      assert (lines + [line])[0] == lines[0];
      assert (lines + [line])[1..] == tail + [line];
      JoinSnoc(tail, line);
      calc {
        Join(lines + [line]);
        lines[0] + "\n" + Join(tail + [line]);
        lines[0] + "\n" + (Join(tail) + line + "\n");
        (lines[0] + "\n" + Join(tail)) + line + "\n";
        Join(lines) + line + "\n";
      }
    }
  }

  /** Scanning joined lines with one more newline-terminated line yields
      that line last. */
  lemma LinesOfSnoc(lines: seq<string>, line: string)
    requires AllLines(lines)
    requires IsLine(line)
    ensures Lines(Join(lines) + line + "\n") == lines + [line]
  {
    var all := lines + [line];
    assert AllLines(all) by {
      forall k | 0 <= k < |all| ensures IsLine(all[k]) {
        if k < |lines| { assert all[k] == lines[k]; }
      }
    }
    JoinSnoc(lines, line);
    LinesOfJoin(all);
  }
}
