/** The log tail: `get_lavalink_logs(lines)` reads the node's log file and
    returns `''.join(readlines()[-lines:])`, and the `/api/logs` route takes
    `lines` from the query string, defaulting to 100. */
module LogTail {
  import opened Outcomes
  import opened JsonValues
  import PyText

  /** What the log path holds: nothing, a file that cannot be read (the
      reason is the exception text), or text (after newline translation). */
  datatype LogFile = Missing | Unreadable(reason: string) | Present(text: string)

  const NotFound := "Log file not found"
  const DefaultLines := 100

  function Join(lines: seq<string>): string
    decreases |lines|
  {
    if |lines| == 0 then "" else lines[0] + Join(lines[1..])
  }

  /** Length of the first line of `s`, its newline included. */
  function LineEnd(s: string): (k: nat)
    ensures k <= |s|
    ensures |s| > 0 ==> k > 0
    ensures forall i :: 0 <= i < k - 1 ==> s[i] != '\n'
    ensures 0 < k < |s| ==> s[k - 1] == '\n'
    decreases |s|
  {
    if |s| == 0 then 0 else if s[0] == '\n' then 1 else 1 + LineEnd(s[1..])
  }

  /** A line as `readlines` yields it: non-empty, with a newline only at its
      end, and ending in one unless it is the file's last line. */
  predicate IsLine(line: string, last: bool) {
    && |line| > 0
    && (forall i :: 0 <= i < |line| - 1 ==> line[i] != '\n')
    && (!last ==> line[|line| - 1] == '\n')
  }

  /** `readlines()`: the text cut after every newline. Joining the lines
      gives the text back. */
  function ReadLines(text: string): (lines: seq<string>)
    ensures Join(lines) == text
    ensures forall i :: 0 <= i < |lines| ==> IsLine(lines[i], i == |lines| - 1)
    decreases |text|
  {
    if |text| == 0 then []
    else
      var k := LineEnd(text);
      var rest := ReadLines(text[k..]);
      assert ([text[..k]] + rest)[1..] == rest;
      assert text[..k] + text[k..] == text;
      [text[..k]] + rest
  }

  /** Where the Python slice `xs[k:]` starts in a sequence of length n. */
  function SliceStart(n: nat, k: int): (s: nat)
    ensures s <= n
  {
    if k < 0 then (if n + k < 0 then 0 else n + k) else (if k > n then n else k)
  }

  function Min(a: int, b: int): int {
    if a < b then a else b
  }

  /** `xs[-count:]`: a suffix of `xs`, whose length depends on the sign of
      `count` (`-0` is `0`, so a count of zero keeps everything). */
  function Tail<T>(xs: seq<T>, count: int): (r: seq<T>)
    ensures |r| <= |xs| && r == xs[|xs| - |r|..]
    ensures count > 0 ==> |r| == Min(count, |xs|)
    ensures count == 0 ==> r == xs
    ensures count < 0 ==> |r| == (if -count > |xs| then 0 else |xs| + count)
  {
    xs[SliceStart(|xs|, -count)..]
  }

  /** `get_lavalink_logs(lines)`: the sentinel for a missing file, the error
      text for an unreadable one, the joined tail otherwise. */
  function Logs(count: int, file: LogFile): (r: string)
    ensures file.Missing? ==> r == NotFound
    ensures file.Unreadable? ==> r == "Error reading logs: " + file.reason
    ensures file.Present? ==> |r| <= |file.text| && r == file.text[|file.text| - |r|..]
    ensures file.Present? && count == 0 ==> r == file.text
    ensures file.Present? ==> var lines := ReadLines(file.text);
                              file.text == Join(lines[..|lines| - |Tail(lines, count)|]) + r
  {
    match file
    case Missing => NotFound
    case Unreadable(reason) => "Error reading logs: " + reason
    case Present(text) =>
      TailSplit(count, text);
      Join(Tail(ReadLines(text), count))
  }

  /** The log text is the text of the lines before the tail followed by
      the text of the tail. */
  lemma TailSplit(count: int, text: string)
    ensures var lines := ReadLines(text);
            var r := Join(Tail(lines, count));
            && text == Join(lines[..|lines| - |Tail(lines, count)|]) + r
            && |r| <= |text| && r == text[|text| - |r|..]
  {
    var lines := ReadLines(text);
    var t := Tail(lines, count);
    CutText(text, lines, |lines| - |t|, t);
  }

  /** Text that joins `lines` is the join of the lines before a cut
      followed by the join of the rest, which is therefore a suffix of it. */
  lemma CutText(text: string, lines: seq<string>, k: nat, rest: seq<string>)
    requires Join(lines) == text && k <= |lines| && rest == lines[k..]
    ensures text == Join(lines[..k]) + Join(rest)
    ensures |Join(rest)| <= |text| && Join(rest) == text[|text| - |Join(rest)|..]
  {
    JoinSplit(lines, k);
    SuffixOfConcat(text, Join(lines[..k]), Join(rest));
  }

  /** Joining a sequence of lines is joining its two halves, either side of
      any cut. */
  lemma JoinSplit(lines: seq<string>, k: nat)
    requires k <= |lines|
    ensures Join(lines) == Join(lines[..k]) + Join(lines[k..])
  {
    assert lines[..k] + lines[k..] == lines;
    JoinAppend(lines[..k], lines[k..]);
  }

  lemma SuffixOfConcat(text: string, a: string, r: string)
    requires text == a + r
    ensures |r| <= |text| && r == text[|text| - |r|..]
  {
  }

  /** `request.args.get('lines', default=100, type=int)`: the first `lines`
      query value converted with `int()`; absent or unconvertible gives 100. */
  function LinesArg(query: map<string, string>): (n: int)
    ensures "lines" !in query ==> n == DefaultLines
    ensures "lines" in query && PyText.ParseInt(query["lines"]).Some? ==> n == PyText.ParseInt(query["lines"]).value
    ensures "lines" in query && PyText.ParseInt(query["lines"]).None? ==> n == DefaultLines
  {
    if "lines" in query then
      match PyText.ParseInt(query["lines"])
      case Some(v) => v
      case None => DefaultLines
    else DefaultLines
  }

  /** `GET /api/logs`: `{"logs": <tail text>}`. */
  function GetLogs(query: map<string, string>, file: LogFile): (r: Json)
    ensures r.JObj? && r.fields.Keys == {"logs"} && r.fields["logs"].JStr?
    ensures "lines" !in query ==> r.fields["logs"].s == Logs(DefaultLines, file)
    ensures "lines" in query && PyText.ParseInt(query["lines"]).Some? ==>
              r.fields["logs"].s == Logs(PyText.ParseInt(query["lines"]).value, file)
    ensures "lines" in query && PyText.ParseInt(query["lines"]).None? ==>
              r.fields["logs"].s == Logs(DefaultLines, file)
    ensures file.Unreadable? ==> r.fields["logs"].s == "Error reading logs: " + file.reason
    ensures file.Missing? ==> r.fields["logs"].s == NotFound
    ensures file.Present? ==> var s := r.fields["logs"].s;
                              |s| <= |file.text| && s == file.text[|file.text| - |s|..]
  {
    Single("logs", Logs(LinesArg(query), file))
  }

  lemma {:induction false} JoinAppend(xs: seq<string>, ys: seq<string>)
    ensures Join(xs + ys) == Join(xs) + Join(ys)
    decreases |xs|
  {
    if |xs| > 0 {
      JoinAppend(xs[1..], ys);
      assert (xs + ys)[1..] == xs[1..] + ys;
    } else {
      assert xs + ys == ys;
    }
  }

  lemma {:induction false} JoinLength(xs: seq<string>)
    requires forall i :: 0 <= i < |xs| ==> |xs[i]| > 0
    ensures |Join(xs)| >= |xs|
    decreases |xs|
  {
    if |xs| > 0 {
      JoinLength(xs[1..]);
    }
  }

  /** The tail is the whole text exactly when it keeps every line. */
  lemma TailIsWhole(count: int, text: string)
    ensures var n := |ReadLines(text)|;
            Logs(count, Present(text)) == text <==> count == 0 || count >= n || n == 0
  {
    var lines := ReadLines(text);
    var t := Tail(lines, count);
    var head := lines[..|lines| - |t|];
    var r := Logs(count, Present(text));
    assert text == Join(head) + r;
    LinesNonEmpty(lines, |lines| - |t|);
    WholeWithoutHead(text, head, r);
    assert |head| == 0 <==> |t| == |lines|;
  }

  /** Lines `readlines` yields are non-empty, so any prefix of them is too. */
  lemma LinesNonEmpty(lines: seq<string>, k: nat)
    requires k <= |lines|
    requires forall i :: 0 <= i < |lines| ==> IsLine(lines[i], i == |lines| - 1)
    ensures forall i :: 0 <= i < k ==> |lines[..k][i]| > 0
  {
  }

  /** Text split as the join of non-empty lines followed by a rest is that
      rest exactly when there are no lines. */
  lemma WholeWithoutHead(text: string, head: seq<string>, r: string)
    requires text == Join(head) + r
    requires forall i :: 0 <= i < |head| ==> |head[i]| > 0
    ensures r == text <==> |head| == 0
  {
    JoinLength(head);
  }
}
