/** Records of a log file: their identities, the listing, and the rewrite that drops some of them. */
module LogRecords {
  import opened Sequences
  import opened LogLines

  /** A parsed log entry; an empty id stands for none, an absent time for one that cannot be read. */
  datatype Record = Record(id: string, kind: string, time: Option<int>, rest: string)

  /** The encoding of entries and the digest that names an entry without id by its line. */
  datatype Codec = Codec(parse: string -> Option<Record>, serialize: Record -> string, legacyId: (string, int) -> string)

  ghost predicate CodecOk(c: Codec) {
    && (forall r :: c.parse(c.serialize(r)) == Some(r))
    && (forall r :: NL !in c.serialize(r) && CR !in c.serialize(r) && c.serialize(r) != "")
    && c.parse("") == None
    && (forall raw, number :: c.legacyId(raw, number) != "")
  }

  function ParseLine(c: Codec, raw: string, number: int): Option<Record> {
    match c.parse(raw)
    case None => None
    case Some(r) => Some(if r.id != "" then r else r.(id := c.legacyId(raw, number)))
  }

  function AsSeq<T>(x: Option<T>): seq<T> {
    if x.Some? then [x.value] else []
  }

  /** The entries of the lines, in file order. */
  function Records(c: Codec, lines: seq<string>): seq<Record> {
    if lines == [] then []
    else Records(c, lines[..|lines| - 1]) + AsSeq(ParseLine(c, StripCR(lines[|lines| - 1]), |lines| - 1))
  }

  /** The entries as they are listed: newest first. */
  function Listing(c: Codec, content: string): seq<Record> {
    Reverse(Records(c, Lines(content)))
  }

  // ---- The listing and the readers ----

  function Parsed(c: Codec, lines: seq<Line>): seq<Record> {
    if lines == [] then []
    else AsSeq(ParseLine(c, lines[0].text, lines[0].number)) + Parsed(c, lines[1..])
  }

  lemma {:induction false} ParsedConcat(c: Codec, a: seq<Line>, b: seq<Line>)
    ensures Parsed(c, a + b) == Parsed(c, a) + Parsed(c, b)
  {
    if a == [] {
      assert a + b == b;
    } else {
      assert (a + b)[1..] == a[1..] + b;
      ParsedConcat(c, a[1..], b);
    }
  }

  lemma ParsedStep(c: Codec, lines: seq<Line>, i: nat)
    requires i < |lines|
    ensures Parsed(c, lines[..i + 1]) == Parsed(c, lines[..i]) + AsSeq(ParseLine(c, lines[i].text, lines[i].number))
  {
    assert lines[..i + 1] == lines[..i] + [lines[i]];
    ParsedConcat(c, lines[..i], [lines[i]]);
  }

  /** Parsing what the backwards reader yields gives the listing. */
  lemma {:induction false} ParsedBackwards(c: Codec, lines: seq<string>)
    ensures Parsed(c, Backwards(lines, |lines| - 1, |lines|)) == Reverse(Records(c, lines))
  {
    if lines != [] {
      var init, last := lines[..|lines| - 1], lines[|lines| - 1];
      ParsedBackwards(c, init);
      var all := Backwards(lines, |lines| - 1, |lines|);
      assert all[1..] == Backwards(init, |init| - 1, |init|);
      var newest := ParseLine(c, StripCR(last), |init|);
      ReverseConcat(Records(c, init), AsSeq(newest));
      assert Reverse(AsSeq(newest)) == AsSeq(newest);
    }
  }

  /** The line that the recent-lines reader leaves out does not parse. */
  lemma ParsedRecent(c: Codec, lines: seq<string>)
    requires CodecOk(c)
    ensures Parsed(c, Backwards(lines, |lines| - 1, Deliverable(lines))) == Parsed(c, Backwards(lines, |lines| - 1, |lines|))
  {
    if Deliverable(lines) < |lines| {
      BackwardsStep(lines, |lines| - 1, Deliverable(lines));
      var dropped := Backwards(lines, |lines| - 1, |lines|)[Deliverable(lines)];
      ParsedConcat(c, Backwards(lines, |lines| - 1, Deliverable(lines)), [dropped]);
    }
  }

  // ---- Text as `read_text` gives it ----

  /** Universal newlines: a carriage return, with or without a line feed behind it, becomes a line feed. */
  function Translate(s: string): string {
    if s == "" then ""
    else if s[0] != CR then [s[0]] + Translate(s[1..])
    else if |s| > 1 && s[1] == NL then [NL] + Translate(s[2..])
    else [NL] + Translate(s[1..])
  }

  /** Carriage returns stand only in front of line feeds. */
  ghost predicate CleanBreaks(s: string) {
    forall i :: 0 <= i < |s| && s[i] == CR ==> i + 1 < |s| && s[i + 1] == NL
  }

  function StripAll(lines: seq<string>): (r: seq<string>)
    ensures |r| == |lines| && forall i :: 0 <= i < |r| ==> r[i] == StripCR(lines[i])
  {
    seq(|lines|, i requires 0 <= i < |lines| => StripCR(lines[i]))
  }

  ghost predicate NoCR(lines: seq<string>) {
    forall l :: l in lines ==> CR !in l
  }

  lemma StripKeepsFirst(ch: char, s: string)
    requires ch != CR
    ensures StripCR([ch] + s) == [ch] + StripCR(s)
  {
    if s != "" {
      assert ([ch] + s)[..|s|] == [ch] + s[..|s| - 1];
    }
  }

  lemma StripsFirst(first: string, more: seq<string>)
    ensures StripAll([first] + more) == [StripCR(first)] + StripAll(more)
  {
  }

  lemma PrependStripped(ch: char, parts: seq<string>)
    requires |parts| >= 1 && ch != CR
    ensures StripAll(Prepend(ch, parts)) == Prepend(ch, StripAll(parts))
  {
    if ch == NL {
      StripsFirst("", parts);
    } else {
      StripKeepsFirst(ch, parts[0]);
      StripsFirst([ch] + parts[0], parts[1..]);
      assert StripAll(parts)[1..] == StripAll(parts[1..]);
    }
  }

  lemma PrependKeepsNoCR(ch: char, parts: seq<string>)
    requires |parts| >= 1 && ch != CR && NoCR(parts)
    ensures NoCR(Prepend(ch, parts))
  {
    forall l | l in Prepend(ch, parts) ensures CR !in l {
      if l !in parts && l != "" {
        assert l == [ch] + parts[0] && parts[0] in parts;
      }
    }
  }

  ghost predicate IsStripped(translated: seq<string>, parts: seq<string>) {
    translated == StripAll(parts) && NoCR(translated)
  }

  lemma StrippedChar(ch: char, translated: seq<string>, parts: seq<string>)
    requires |parts| >= 1 && ch != CR && IsStripped(translated, parts)
    ensures IsStripped(Prepend(ch, translated), Prepend(ch, parts))
  {
    PrependStripped(ch, parts);
    PrependKeepsNoCR(ch, translated);
  }

  lemma StrippedBreak(translated: seq<string>, parts: seq<string>)
    requires |parts| >= 1 && IsStripped(translated, parts)
    ensures IsStripped(Prepend(NL, translated), Prepend(CR, Prepend(NL, parts)))
  {
    PrependKeepsNoCR(NL, translated);
    var broken := Prepend(NL, parts);
    assert broken[1..] == parts && [CR] + broken[0] == [CR];
    assert StripCR([CR]) == "";
  }

  lemma {:induction false} TranslatedParts(s: string)
    requires CleanBreaks(s)
    ensures IsStripped(Split(Translate(s)), Split(s))
  {
    if s == "" {
    } else if s[0] != CR {
      TranslatedParts(s[1..]);
      SplitStep(s[0], Translate(s[1..]));
      StrippedChar(s[0], Split(Translate(s[1..])), Split(s[1..]));
    } else {
      TranslatedParts(s[2..]);
      SplitStep(NL, Translate(s[2..]));
      assert s == [CR] + ([NL] + s[2..]);
      SplitStep(NL, s[2..]);
      SplitStep(CR, [NL] + s[2..]);
      StrippedBreak(Split(Translate(s[2..])), Split(s[2..]));
    }
  }

  lemma StrippedLines(translated: seq<string>, parts: seq<string>)
    requires IsStripped(translated, parts) && parts != [] && CR !in parts[|parts| - 1]
    ensures IsStripped(DropEmptyEnd(translated), DropEmptyEnd(parts))
  {
    var last := parts[|parts| - 1];
    assert translated[|parts| - 1] == StripCR(last) == last;
    assert StripAll(parts)[..|parts| - 1] == StripAll(parts[..|parts| - 1]);
  }

  /** The lines of a rewrite are the lines of the reader, and hold no carriage return. */
  lemma TranslatedLines(s: string)
    requires CleanBreaks(s)
    ensures IsStripped(Lines(Translate(s)), Lines(s))
  {
    TranslatedParts(s);
    LastPartHasNoCR(s);
    StrippedLines(Split(Translate(s)), Split(s));
  }

  lemma LastOfPrepend(ch: char, parts: seq<string>)
    requires |parts| >= 1 && CR !in parts[|parts| - 1] && (ch == CR ==> |parts| >= 2)
    ensures CR !in Prepend(ch, parts)[|Prepend(ch, parts)| - 1]
  {
  }

  lemma CleanTail(s: string)
    requires CleanBreaks(s) && s != ""
    ensures CleanBreaks(s[1..]) && (s[0] == CR ==> |s| > 1 && s[1] == NL)
  {
    var tail := s[1..];
    forall i | 0 <= i < |tail| && tail[i] == CR ensures i + 1 < |tail| && tail[i + 1] == NL {
      assert s[i + 1] == CR;
    }
  }

  lemma {:induction false} LastPartHasNoCR(s: string)
    requires CleanBreaks(s)
    ensures CR !in Split(s)[|Split(s)| - 1]
  {
    if s != "" {
      CleanTail(s);
      LastPartHasNoCR(s[1..]);
      if s[0] == CR {
        SplitStep(NL, s[2..]);
        assert s[1..] == [NL] + s[2..];
      }
      LastOfPrepend(s[0], Split(s[1..]));
    }
  }

  lemma {:induction false} RecordsStripped(c: Codec, lines: seq<string>)
    requires NoCR(StripAll(lines))
    ensures Records(c, StripAll(lines)) == Records(c, lines)
  {
    if lines != [] {
      var n := |lines| - 1;
      assert StripAll(lines)[..n] == StripAll(lines[..n]);
      assert StripAll(lines)[n] in StripAll(lines);
      RecordsStripped(c, lines[..n]);
    }
  }

  // ---- The rewrite ----

  /** What a rewrite writes for a line: the text itself if it does not parse, nothing if its entry is
      dropped, otherwise the entry with its id written out. */
  function Rewritten(c: Codec, raw: string, number: int, drop: Record -> bool): seq<string> {
    match ParseLine(c, raw, number)
    case None => [raw]
    case Some(r) => if drop(r) then [] else [c.serialize(r)]
  }

  function Kept(c: Codec, lines: seq<string>, drop: Record -> bool): seq<string> {
    if lines == [] then []
    else Kept(c, lines[..|lines| - 1], drop) + Rewritten(c, lines[|lines| - 1], |lines| - 1, drop)
  }

  function Dropped(c: Codec, lines: seq<string>, drop: Record -> bool): nat {
    if lines == [] then 0
    else
      Dropped(c, lines[..|lines| - 1], drop) +
      match ParseLine(c, lines[|lines| - 1], |lines| - 1)
      case None => 0
      case Some(r) => if drop(r) then 1 else 0
  }

  function KeepUnless(drop: Record -> bool): Record -> bool {
    r => !drop(r)
  }

  lemma RecordsAppend(c: Codec, lines: seq<string>, raw: string)
    ensures Records(c, lines + [raw]) == Records(c, lines) + AsSeq(ParseLine(c, StripCR(raw), |lines|))
  {
    assert (lines + [raw])[..|lines|] == lines;
  }

  lemma KeptStep(c: Codec, kept: seq<string>, raw: string, number: int, drop: Record -> bool)
    requires CodecOk(c) && StripCR(raw) == raw
    ensures Records(c, kept + Rewritten(c, raw, number, drop)) ==
            Records(c, kept) + Filter(AsSeq(ParseLine(c, raw, number)), KeepUnless(drop))
  {
    var parsed := ParseLine(c, raw, number);
    if parsed.None? {
      RecordsAppend(c, kept, raw);
    } else if drop(parsed.value) {
      assert kept + [] == kept;
    } else {
      RecordsAppend(c, kept, c.serialize(parsed.value));
      SerializedParses(c, parsed.value, |kept|);
    }
  }

  /** The records of a rewrite are the records that were not dropped, with the ids they had: a written id
      no longer depends on the line number, and a line that does not parse does not parse anywhere. */
  lemma {:induction false} RecordsOfKept(c: Codec, lines: seq<string>, drop: Record -> bool)
    requires CodecOk(c) && NoCR(lines)
    ensures Records(c, Kept(c, lines, drop)) == Filter(Records(c, lines), KeepUnless(drop))
  {
    if lines != [] {
      var n := |lines| - 1;
      var raw := lines[n];
      assert raw in lines && StripCR(raw) == raw;
      RecordsOfKept(c, lines[..n], drop);
      KeptStep(c, Kept(c, lines[..n], drop), raw, n, drop);
      FilterConcat(Records(c, lines[..n]), AsSeq(ParseLine(c, raw, n)), KeepUnless(drop));
    }
  }

  lemma SerializedParses(c: Codec, r: Record, number: int)
    requires CodecOk(c) && r.id != ""
    ensures ParseLine(c, StripCR(c.serialize(r)), number) == Some(r)
  {
    var s := c.serialize(r);
    assert CR !in s && s[|s| - 1] in s;
  }

  lemma {:induction false} KeptIsClean(c: Codec, lines: seq<string>, drop: Record -> bool)
    requires CodecOk(c) && NoCR(lines) && (forall l :: l in lines ==> NL !in l)
    ensures forall k :: k in Kept(c, lines, drop) ==> CR !in k && NL !in k
  {
    if lines != [] {
      KeptIsClean(c, lines[..|lines| - 1], drop);
      assert lines[|lines| - 1] in lines;
    }
  }

  // ---- Joining ----

  /** `"\n".join(lines)`. */
  function Join(lines: seq<string>): string {
    if lines == [] then "" else if |lines| == 1 then lines[0] else lines[0] + ([NL] + Join(lines[1..]))
  }

  /** The text of a rewritten file. */
  function FileOf(lines: seq<string>): string {
    if Join(lines) == "" then "" else Join(lines) + [NL]
  }

  lemma {:induction false} SplitAfter(line: string, rest: string)
    requires NL !in line
    ensures Split(line + ([NL] + rest)) == [line] + Split(rest)
  {
    if line == "" {
      assert line + ([NL] + rest) == [NL] + rest;
      SplitStep(NL, rest);
    } else {
      assert line[0] in line;
      SplitAfter(line[1..], rest);
      assert line + ([NL] + rest) == [line[0]] + (line[1..] + ([NL] + rest));
      SplitStep(line[0], line[1..] + ([NL] + rest));
      assert [line[0]] + line[1..] == line;
    }
  }

  lemma OneLine(line: string)
    requires NL !in line
    ensures Split(line + [NL]) == [line, ""]
  {
    SplitAfter(line, "");
    assert line + ([NL] + "") == line + [NL];
  }

  lemma OneMoreLine(line: string, joined: string, parts: seq<string>)
    requires NL !in line && Split(joined + [NL]) == parts
    ensures Split((line + ([NL] + joined)) + [NL]) == [line] + parts
  {
    SplitAfter(line, joined + [NL]);
    assert line + ([NL] + (joined + [NL])) == (line + ([NL] + joined)) + [NL];
  }

  lemma {:induction false} SplitJoined(lines: seq<string>)
    requires lines != [] && forall l :: l in lines ==> NL !in l
    ensures Split(Join(lines) + [NL]) == lines + [""]
  {
    assert lines[0] in lines;
    if |lines| == 1 {
      OneLine(lines[0]);
    } else {
      SplitJoined(lines[1..]);
      OneMoreLine(lines[0], Join(lines[1..]), lines[1..] + [""]);
      assert lines + [""] == [lines[0]] + (lines[1..] + [""]);
    }
  }

  lemma NothingToJoin(lines: seq<string>)
    requires lines != []
    ensures Join(lines) == "" <==> lines == [""]
  {
    if |lines| == 1 {
      assert lines == [lines[0]];
    } else {
      assert |Join(lines)| >= 1;
    }
  }

  lemma EmptyEndIsDropped(parts: seq<string>)
    ensures DropEmptyEnd(parts + [""]) == parts
  {
  }

  /** Reading back a rewritten file gives its lines, but for a single empty line. */
  lemma LinesOfFile(lines: seq<string>)
    requires forall l :: l in lines ==> NL !in l
    ensures Lines(FileOf(lines)) == if lines == [""] then [] else lines
  {
    if lines == [] {
      assert FileOf(lines) == "";
    } else {
      NothingToJoin(lines);
      SplitJoined(lines);
      EmptyEndIsDropped(lines);
    }
  }

  lemma {:induction false} JoinIsClean(lines: seq<string>)
    requires NoCR(lines)
    ensures CR !in Join(lines)
  {
    if lines != [] {
      assert lines[0] in lines;
      JoinIsClean(lines[1..]);
    }
  }

  /** A log file as the service leaves it: whole lines, no stray carriage return. */
  ghost predicate FileOk(content: string) {
    CleanBreaks(content) && (content == "" || EndsLine(content))
  }

  function RewriteLines(content: string): seq<string> {
    Lines(Translate(content))
  }

  lemma LinesHaveNoBreak(s: string)
    ensures forall l :: l in Lines(s) ==> NL !in l
  {
    PartsHaveNoBreak(s);
  }

  lemma RewriteIsFileOk(c: Codec, lines: seq<string>, drop: Record -> bool)
    requires CodecOk(c) && NoCR(lines) && forall l :: l in lines ==> NL !in l
    ensures FileOk(FileOf(Kept(c, lines, drop)))
  {
    KeptIsClean(c, lines, drop);
    JoinIsClean(Kept(c, lines, drop));
  }

  /** A rewrite removes exactly the dropped records from the listing; the others stay as they are, with
      the same ids and in the same order, also those whose id came from a line number. */
  lemma RewriteKeepsListing(c: Codec, content: string, drop: Record -> bool)
    requires CodecOk(c) && CleanBreaks(content)
    ensures var after := FileOf(Kept(c, RewriteLines(content), drop));
            Listing(c, after) == Filter(Listing(c, content), KeepUnless(drop)) && FileOk(after)
  {
    var lines := RewriteLines(content);
    RewriteReads(c, content);
    FileOfKept(c, lines, drop);
    ReverseFilter(Records(c, lines), KeepUnless(drop));
    RewriteIsFileOk(c, lines, drop);
  }

  /** The rewrite reads the same records as the listing. */
  lemma RewriteReads(c: Codec, content: string)
    requires CleanBreaks(content)
    ensures NoCR(RewriteLines(content)) && forall l :: l in RewriteLines(content) ==> NL !in l
    ensures Records(c, RewriteLines(content)) == Records(c, Lines(content))
  {
    TranslatedLines(content);
    LinesHaveNoBreak(Translate(content));
    RecordsStripped(c, Lines(content));
  }

  lemma FileOfKept(c: Codec, lines: seq<string>, drop: Record -> bool)
    requires CodecOk(c) && NoCR(lines) && forall l :: l in lines ==> NL !in l
    ensures Records(c, Lines(FileOf(Kept(c, lines, drop)))) == Filter(Records(c, lines), KeepUnless(drop))
  {
    var kept := Kept(c, lines, drop);
    RecordsOfKept(c, lines, drop);
    KeptIsClean(c, lines, drop);
    LinesOfFile(kept);
    if kept == [""] {
      RecordsAppend(c, [], "");
    }
  }

  lemma {:induction false} DroppedIsTheDifference(c: Codec, lines: seq<string>, drop: Record -> bool)
    requires NoCR(lines)
    ensures Dropped(c, lines, drop) == |Records(c, lines)| - |Filter(Records(c, lines), KeepUnless(drop))|
  {
    if lines != [] {
      var n := |lines| - 1;
      assert lines[n] in lines && StripCR(lines[n]) == lines[n];
      DroppedIsTheDifference(c, lines[..n], drop);
      FilterConcat(Records(c, lines[..n]), AsSeq(ParseLine(c, lines[n], n)), KeepUnless(drop));
    }
  }

  lemma RewriteCounts(c: Codec, content: string, drop: Record -> bool)
    requires CleanBreaks(content)
    ensures Dropped(c, RewriteLines(content), drop) == |Listing(c, content)| - |Filter(Listing(c, content), KeepUnless(drop))|
  {
    RewriteReads(c, content);
    DroppedIsTheDifference(c, RewriteLines(content), drop);
    ReverseFilter(Records(c, Lines(content)), KeepUnless(drop));
  }

  // ---- Appending ----

  lemma PrependFront(ch: char, parts: seq<string>, more: seq<string>)
    requires |parts| >= 2
    ensures Prepend(ch, parts[..|parts| - 1] + more) == Prepend(ch, parts)[..|Prepend(ch, parts)| - 1] + more
  {
  }

  lemma {:induction false} SplitConcat(a: string, b: string)
    requires a == "" || EndsLine(a)
    ensures Split(a + b) == Split(a)[..|Split(a)| - 1] + Split(b)
  {
    if a == "" {
      assert a + b == b;
    } else {
      var tail := a[1..];
      assert a + b == [a[0]] + (tail + b) && a == [a[0]] + tail;
      SplitConcat(tail, b);
      SplitStep(a[0], tail + b);
      SplitStep(a[0], tail);
      SplitLast(tail);
      if tail == "" {
        assert Split(tail)[..0] + Split(b) == Split(b);
      } else {
        PrependFront(a[0], Split(tail), Split(b));
      }
    }
  }

  lemma AppendedLine(content: string, line: string)
    requires (content == "" || EndsLine(content)) && NL !in line
    ensures Lines(content + (line + [NL])) == Lines(content) + [line]
  {
    SplitConcat(content, line + [NL]);
    SplitLast(content);
    SplitAfter(line, "");
    assert line + ([NL] + "") == line + [NL];
    assert Split(line + [NL]) == [line, ""];
  }

  lemma AppendKeepsFileOk(content: string, line: string)
    requires FileOk(content) && CR !in line
    ensures FileOk(content + (line + [NL]))
  {
    assert forall k :: 0 <= k < |line| ==> line[k] != CR by {
      forall k | 0 <= k < |line| ensures line[k] != CR {
        assert line[k] in line;
      }
    }
  }

  /** An appended entry comes first in the listing and changes nothing behind it. */
  lemma AppendedIsListedFirst(c: Codec, content: string, r: Record)
    requires CodecOk(c) && FileOk(content) && r.id != ""
    ensures Listing(c, content + (c.serialize(r) + [NL])) == [r] + Listing(c, content)
    ensures FileOk(content + (c.serialize(r) + [NL]))
  {
    var s := c.serialize(r);
    AppendedLine(content, s);
    RecordsAppend(c, Lines(content), s);
    SerializedParses(c, r, |Lines(content)|);
    ReverseConcat(Records(c, Lines(content)), [r]);
    AppendKeepsFileOk(content, s);
  }

  /** What the recent-lines reader yields parses to the listing. */
  lemma RecentIsListing(c: Codec, content: string)
    requires CodecOk(c)
    ensures Parsed(c, Backwards(Lines(content), |Lines(content)| - 1, Deliverable(Lines(content)))) == Listing(c, content)
  {
    ParsedRecent(c, Lines(content));
    ParsedBackwards(c, Lines(content));
  }
}
