/** Lines of a log file, and the two readers that take the file block by block from its end. */
module LogLines {
  import opened Sequences

  const NL := '\n'
  const CR := '\r'

  // ---- Splitting ----

  /** `content.split("\n")`: always at least one part. */
  function Split(s: string): (parts: seq<string>)
    ensures |parts| >= 1
  {
    if s == "" then [""] else Prepend(s[0], Split(s[1..]))
  }

  /** The parts of a text with one more character in front. */
  function Prepend(ch: char, parts: seq<string>): (r: seq<string>)
    requires |parts| >= 1
    ensures |r| >= 1
  {
    if ch == NL then [""] + parts else [[ch] + parts[0]] + parts[1..]
  }

  lemma {:induction false} PartsHaveNoBreak(s: string)
    ensures forall p :: p in Split(s) ==> NL !in p
  {
    if s != "" {
      PartsHaveNoBreak(s[1..]);
      var rest := Split(s[1..]);
      forall p | p in Split(s) ensures NL !in p {
        if p !in rest {
          assert p == "" || p == [s[0]] + rest[0];
        }
      }
    }
  }

  /** The parts that are lines: a last line break ends the last line, it does not start another. */
  function DropEmptyEnd(parts: seq<string>): seq<string> {
    if parts != [] && parts[|parts| - 1] == "" then parts[..|parts| - 1] else parts
  }

  function Lines(content: string): seq<string> {
    DropEmptyEnd(Split(content))
  }

  predicate EndsLine(s: string) {
    s != "" && s[|s| - 1] == NL
  }

  lemma {:induction false} SplitWhole(s: string)
    requires NL !in s
    ensures Split(s) == [s]
  {
    if s != "" {
      assert s[0] in s && s == [s[0]] + s[1..];
      SplitWhole(s[1..]);
    }
  }

  lemma PrependConcat(ch: char, a: seq<string>, b: seq<string>)
    requires |a| >= 1
    ensures Prepend(ch, a + b) == Prepend(ch, a) + b
  {
  }

  lemma SplitStep(ch: char, s: string)
    ensures Split([ch] + s) == Prepend(ch, Split(s))
  {
    assert ([ch] + s)[1..] == s;
  }

  /** What is in front only changes the first part of what follows. */
  lemma {:induction false} SplitFront(front: string, rest: string)
    ensures Split(front + rest) == Split(front + Split(rest)[0]) + Split(rest)[1..]
  {
    var first, more := Split(rest)[0], Split(rest)[1..];
    if front == "" {
      assert front + rest == rest && front + first == first;
      PartsHaveNoBreak(rest);
      SplitWhole(first);
    } else {
      var ch, tail := front[0], front[1..];
      SplitFront(tail, rest);
      assert front + rest == [ch] + (tail + rest) && front + first == [ch] + (tail + first);
      SplitStep(ch, tail + rest);
      SplitStep(ch, tail + first);
      PrependConcat(ch, Split(tail + first), more);
    }
  }

  lemma {:induction false} SplitLast(s: string)
    ensures var parts := Split(s); parts[|parts| - 1] == "" <==> s == "" || EndsLine(s)
    ensures EndsLine(s) ==> |Split(s)| >= 2
  {
    if s != "" {
      SplitLast(s[1..]);
    }
  }

  // ---- Counting ----

  function Breaks(s: string): nat {
    if s == "" then 0 else (if s[0] == NL then 1 else 0) + Breaks(s[1..])
  }

  lemma {:induction false} BreaksConcat(a: string, b: string)
    ensures Breaks(a + b) == Breaks(a) + Breaks(b)
  {
    if a == "" {
      assert a + b == b;
    } else {
      BreaksConcat(a[1..], b);
      assert (a + b)[1..] == a[1..] + b;
    }
  }

  lemma {:induction false} BreaksAreParts(s: string)
    ensures Breaks(s) + 1 == |Split(s)|
  {
    if s != "" {
      BreaksAreParts(s[1..]);
    }
  }

  /** `chunk.count(b"\n")`. */
  method CountBreaks(chunk: string) returns (n: nat)
    ensures n == Breaks(chunk)
  {
    n := 0;
    for i := |chunk| downto 0
      invariant n == Breaks(chunk[i..])
    {
      assert chunk[i..][1..] == chunk[i + 1..];
      if chunk[i] == NL {
        n := n + 1;
      }
    }
    assert chunk[0..] == chunk;
  }

  /** `_line_count`, read in blocks. */
  method LineCount(content: string, block: nat) returns (total: nat)
    requires block >= 1
    ensures total == |Lines(content)|
  {
    if |content| == 0 {
      return 0;
    }
    var breaks := 0;
    var position := 0;
    while position < |content|
      invariant position <= |content|
      invariant breaks == Breaks(content[..position])
    {
      var next := Min(position + block, |content|);
      var chunk := content[position..next];
      var n := CountBreaks(chunk);
      BreaksConcat(content[..position], chunk);
      assert content[..position] + chunk == content[..next];
      breaks, position := breaks + n, next;
    }
    assert content[..position] == content;
    BreaksAreParts(content);
    SplitLast(content);
    total := if content[|content| - 1] == NL then breaks else breaks + 1;
  }

  // ---- Reading backwards ----

  datatype Line = Line(text: string, number: int)

  /** One trailing carriage return removed. */
  function StripCR(s: string): string {
    if s != "" && s[|s| - 1] == CR then s[..|s| - 1] else s
  }

  /** The last `n` lines, last one first, numbered downwards from `top`. */
  function Backwards(lines: seq<string>, top: int, n: nat): (r: seq<Line>)
    requires n <= |lines|
    ensures |r| == n
    ensures forall k :: 0 <= k < n ==> r[k] == Line(StripCR(lines[|lines| - 1 - k]), top - k)
  {
    seq(n, k requires 0 <= k < n => Line(StripCR(lines[|lines| - 1 - k]), top - k))
  }

  lemma BackwardsStep(lines: seq<string>, top: int, n: nat)
    requires n < |lines|
    ensures Backwards(lines, top, n + 1) == Backwards(lines, top, n) + [Line(StripCR(lines[|lines| - 1 - n]), top - n)]
  {
  }

  /** How far a backwards reader has come: `behind` parts of the file are dealt with. */
  ghost predicate Read(parts: seq<string>, behind: nat, skipped: bool, top: int, out: seq<Line>) {
    var n := if behind == 0 then 0 else behind - (|parts| - |DropEmptyEnd(parts)|);
    && behind <= |parts|
    && (skipped <==> behind > 0)
    && 0 <= n <= |DropEmptyEnd(parts)|
    && out == Backwards(DropEmptyEnd(parts), top, n)
  }

  /** The reader at a block boundary: the buffer holds the start of the part that is cut there. */
  ghost predicate AtBoundary(content: string, position: nat, buffer: string, skipped: bool, top: int, out: seq<Line>) {
    && position <= |content|
    && buffer == Split(content[position..])[0]
    && Read(Split(content), |Split(content[position..])| - 1, skipped, top, out)
  }

  /** The next part towards the start of the file: the empty part behind a last line break is skipped,
      any other part is the next line. */
  lemma PartIsLine(parts: seq<string>, behind: nat, skipped: bool, top: int, out: seq<Line>)
    requires Read(parts, behind, skipped, top, out) && behind < |parts|
    ensures var raw := parts[|parts| - 1 - behind];
            if !skipped && raw == "" then Read(parts, behind + 1, true, top, out)
            else Read(parts, behind + 1, true, top, out + [Line(StripCR(raw), top - |out|)])
  {
    var raw := parts[|parts| - 1 - behind];
    if skipped || raw != "" {
      BackwardsStep(DropEmptyEnd(parts), top, |out|);
    }
  }

  /** `parts` completes to `whole`, which ends the list `all`; `behind` of its elements come after. */
  ghost predicate Completes(all: seq<string>, whole: seq<string>, parts: seq<string>, behind: nat) {
    && |parts| >= 1 && |parts| + behind == |whole| <= |all|
    && (forall i :: 1 <= i < |parts| ==> parts[i] == all[|all| - |whole| + i])
    && parts[0] == whole[0]
  }

  lemma CompletesWhole(all: seq<string>, front: seq<string>, whole: seq<string>, parts: seq<string>, tail: seq<string>)
    requires |parts| >= 1 && |front| >= 1 && whole == parts + tail && all == front + whole[1..]
    ensures Completes(all, whole, parts, |tail|)
  {
  }

  lemma MiddleParts(front: string, chunk: string, rest: string)
    ensures Completes(Split(front + (chunk + rest)), Split(chunk + rest), Split(chunk + Split(rest)[0]), |Split(rest)| - 1)
  {
    SplitFront(chunk, rest);
    SplitFront(front, chunk + rest);
    CompletesWhole(Split(front + (chunk + rest)), Split(front + Split(chunk + rest)[0]), Split(chunk + rest),
                   Split(chunk + Split(rest)[0]), Split(rest)[1..]);
  }

  /** The parts that a new block completes are the last ones not dealt with yet. */
  lemma BlockTaken(content: string, position: int, next: int, buffer: string, behind: nat)
    requires 0 <= next <= position <= |content|
    requires behind == |Split(content[position..])| - 1 && buffer == Split(content[position..])[0]
    ensures Completes(Split(content), Split(content[next..]), Split(content[next..position] + buffer), behind)
  {
    var front, chunk, rest := content[..next], content[next..position], content[position..];
    assert chunk + rest == content[next..] && front + (chunk + rest) == content;
    MiddleParts(front, chunk, rest);
  }

  /** The loop over the completed parts of a block, last one first. */
  method EmitAll(ghost all: seq<string>, ghost whole: seq<string>, ghost behind: nat, parts: seq<string>,
          totalLines: nat, wasSkipped: bool, firstNumber: int, before: seq<Line>)
    returns (skipped: bool, lineNumber: int, out: seq<Line>)
    requires Completes(all, whole, parts, behind)
    requires Read(all, behind, wasSkipped, totalLines - 1, before) && firstNumber == totalLines - 1 - |before|
    ensures Read(all, behind + |parts| - 1, skipped, totalLines - 1, out) && lineNumber == totalLines - 1 - |out|
  {
    skipped, lineNumber, out := wasSkipped, firstNumber, before;
    for i := |parts| downto 1
      invariant Read(all, behind + |parts| - i, skipped, totalLines - 1, out)
      invariant lineNumber == totalLines - 1 - |out|
    {
      PartIsLine(all, behind + |parts| - i - 1, skipped, totalLines - 1, out);
      if !skipped && parts[i] == "" && lineNumber == totalLines - 1 {
        skipped := true;
      } else {
        skipped := true;
        out := out + [Line(StripCR(parts[i]), lineNumber)];
        lineNumber := lineNumber - 1;
      }
    }
  }

  /** `_iter_raw_lines_reverse`: every line with its number, last one first, whatever the block size. */
  method IterRawLinesReverse(content: string, block: nat) returns (out: seq<Line>)
    requires block >= 1
    ensures out == Backwards(Lines(content), |Lines(content)| - 1, |Lines(content)|)
  {
    out := [];
    var totalLines := LineCount(content, block);
    if totalLines <= 0 {
      return;
    }
    var lineNumber := totalLines - 1;
    var buffer := "";
    var skipped := false;
    var position := |content|;
    while position > 0
      invariant 0 <= position && AtBoundary(content, position, buffer, skipped, totalLines - 1, out)
      invariant lineNumber == totalLines - 1 - |out|
    {
      var readSize := Min(block, position);
      var next := position - readSize;
      ghost var behind := |Split(content[position..])| - 1;
      BlockTaken(content, position, next, buffer, behind);
      var parts := Split(content[next..position] + buffer);
      skipped, lineNumber, out := EmitAll(Split(content), Split(content[next..]), behind, parts, totalLines, skipped, lineNumber, out);
      buffer, position := parts[0], next;
    }
    FirstLine(content, buffer, skipped, totalLines - 1, out);
    if lineNumber >= 0 {
      out := out + [Line(StripCR(buffer), lineNumber)];
    }
  }

  /** At the start of a file that has lines, the buffer is the one line left. */
  lemma FirstLine(content: string, buffer: string, skipped: bool, top: int, out: seq<Line>)
    requires AtBoundary(content, 0, buffer, skipped, top, out) && Lines(content) != []
    ensures |out| == |Lines(content)| - 1
    ensures out + [Line(StripCR(buffer), top - |out|)] == Backwards(Lines(content), top, |Lines(content)|)
  {
    assert content[0..] == content;
    PartIsLine(Split(content), |Split(content)| - 1, skipped, top, out);
  }

  /** How many lines the recent-lines reader can deliver: an empty first line of the file is left out. */
  function Deliverable(lines: seq<string>): nat {
    if lines != [] && lines[0] == "" then |lines| - 1 else |lines|
  }

  /** The state of the recent-lines reader: at a block boundary, or done in the middle of a block. */
  ghost predicate ReadRecent(content: string, position: int, buffer: string, maxItems: int, behind: nat,
          skipped: bool, top: int, out: seq<Line>) {
    && 0 <= position <= |content| && behind < |Split(content)|
    && Read(Split(content), behind, skipped, top, out) && |out| <= maxItems
    && (|out| < maxItems ==> behind == |Split(content[position..])| - 1 && buffer == Split(content[position..])[0])
  }

  /** The loop over the parts of one block, last one first, until enough lines are out. */
  method EmitParts(ghost all: seq<string>, ghost whole: seq<string>, ghost rest: nat, parts: seq<string>,
          maxItems: int, wasSkipped: bool, top: int, before: seq<Line>)
    returns (skipped: bool, out: seq<Line>, ghost behind: nat)
    requires Completes(all, whole, parts, rest)
    requires Read(all, rest, wasSkipped, top, before) && |before| <= maxItems
    ensures Read(all, behind, skipped, top, out) && |out| <= maxItems
    ensures behind < |all| && (|out| < maxItems ==> behind == rest + |parts| - 1)
  {
    skipped, out, behind := wasSkipped, before, rest;
    var i := |parts|;
    while i > 1 && |out| < maxItems
      invariant 1 <= i <= |parts| && behind == rest + |parts| - i
      invariant Read(all, behind, skipped, top, out) && |out| <= maxItems
    {
      i := i - 1;
      PartIsLine(all, behind, skipped, top, out);
      behind := behind + 1;
      if !skipped && parts[i] == "" {
        skipped := true;
      } else {
        skipped := true;
        out := out + [Line(StripCR(parts[i]), top - |out|)];
      }
    }
  }

  lemma EnoughLines(content: string, position: int, buffer: string, maxItems: int, behind: nat, skipped: bool, top: int, out: seq<Line>)
    requires ReadRecent(content, position, buffer, maxItems, behind, skipped, top, out) && |out| >= maxItems >= 0
    ensures out == Backwards(Lines(content), top, Min(maxItems, Deliverable(Lines(content))))
  {
  }

  lemma LastPart(content: string, buffer: string, maxItems: int, behind: nat, skipped: bool, top: int, out: seq<Line>)
    requires ReadRecent(content, 0, buffer, maxItems, behind, skipped, top, out) && |out| < maxItems
    ensures buffer != "" ==> out + [Line(StripCR(buffer), top - |out|)] == Backwards(Lines(content), top, |Lines(content)|)
    ensures if buffer == "" then out == Backwards(Lines(content), top, Deliverable(Lines(content)))
            else Deliverable(Lines(content)) == |Lines(content)| == |out| + 1
  {
    assert content[0..] == content;
    PartIsLine(Split(content), behind, skipped, top, out);
  }

  /** `_iter_recent_raw_lines`: the same lines in the same order, at most `maxItems` of them; the caller
      names the number of the last line. */
  method IterRecentRawLines(content: string, block: nat, maxItems: int, totalLines: Option<int>) returns (out: seq<Line>)
    requires block >= 1
    ensures var top := if totalLines.Some? then totalLines.value - 1 else -1;
            out == Backwards(Lines(content), top, Max(0, Min(maxItems, Deliverable(Lines(content)))))
  {
    out := [];
    if maxItems <= 0 {
      return;
    }
    var top := if totalLines.Some? then totalLines.value - 1 else -1;
    ghost var behind := 0;
    var buffer := "";
    var skipped := false;
    var position := |content|;
    while position > 0 && |out| < maxItems
      invariant ReadRecent(content, position, buffer, maxItems, behind, skipped, top, out)
    {
      var readSize := Min(block, position);
      var next := position - readSize;
      BlockTaken(content, position, next, buffer, behind);
      var parts := Split(content[next..position] + buffer);
      skipped, out, behind := EmitParts(Split(content), Split(content[next..]), behind, parts, maxItems, skipped, top, out);
      buffer, position := parts[0], next;
    }
    if |out| < maxItems {
      LastPart(content, buffer, maxItems, behind, skipped, top, out);
      if buffer != "" {
        out := out + [Line(StripCR(buffer), top - |out|)];
      }
    } else {
      EnoughLines(content, position, buffer, maxItems, behind, skipped, top, out);
    }
  }
}
