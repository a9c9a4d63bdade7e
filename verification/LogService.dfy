/** The log service: a file that is appended to, listed page by page, and rewritten by deletions. */
module LogService {
  import opened Sequences
  import opened LogLines
  import opened LogRecords

  const BLOCK := 1048576

  // ---- Pages ----

  /** `s[offset : offset + limit]`. */
  function Page<T>(s: seq<T>, offset: nat, limit: nat): (r: seq<T>)
    ensures |r| <= limit
  {
    s[Min(offset, |s|)..Min(offset + limit, |s|)]
  }

  /** Pages of the same size, one after the other. */
  function Pages<T>(s: seq<T>, limit: nat, n: nat): seq<T> {
    if n == 0 then [] else Pages(s, limit, n - 1) + Page(s, (n - 1) * limit, limit)
  }

  lemma {:induction false} PagesTile<T>(s: seq<T>, limit: nat, n: nat)
    ensures Pages(s, limit, n) == s[..Min(n * limit, |s|)]
  {
    if n > 0 {
      PagesTile(s, limit, n - 1);
      assert n * limit == (n - 1) * limit + limit;
      Glue(s, (n - 1) * limit, limit);
    }
  }

  lemma Glue<T>(s: seq<T>, offset: nat, limit: nat)
    ensures s[..Min(offset, |s|)] + Page(s, offset, limit) == s[..Min(offset + limit, |s|)]
  {
  }

  function KindTest(kind: string): Record -> bool {
    (r: Record) => kind == "" || r.kind == kind
  }

  /** A query: a type filter, and possibly precise filters beside it. */
  datatype Query = Query(kind: string, precise: Option<Record -> bool>)

  function Keep(q: Query): Record -> bool {
    if q.precise.None? then KindTest(q.kind) else (r: Record) => KindTest(q.kind)(r) && q.precise.value(r)
  }

  function Limit(limit: int): nat {
    Max(1, Min(if limit == 0 then 200 else limit, 20000))
  }

  function Offset(offset: int): nat {
    Max(0, offset)
  }

  // ---- What a page shows ----

  /** The record is what the query asks for. */
  predicate IsAsked(r: Record, q: Query) {
    (q.kind == "" || r.kind == q.kind) && (q.precise.Some? ==> q.precise.value(r))
  }

  /** How many of the records are asked for. */
  function AskedIn(records: seq<Record>, q: Query): nat {
    if records == [] then 0 else AskedIn(records[..|records| - 1], q) + if IsAsked(records[|records| - 1], q) then 1 else 0
  }

  /** A page has between 1 and 20000 entries, 200 if no size is given. */
  function PageSize(limit: int): nat {
    if limit == 0 then 200 else if limit < 1 then 1 else if limit > 20000 then 20000 else limit
  }

  function PageStart(offset: int): nat {
    if offset < 0 then 0 else offset
  }

  lemma {:induction false} AskedIsFiltered(records: seq<Record>, q: Query)
    ensures AskedIn(records, q) == |Filter(records, Keep(q))|
  {
    if records != [] {
      var init, last := records[..|records| - 1], records[|records| - 1];
      AskedIsFiltered(init, q);
      FilterAppend(init, last, Keep(q));
      assert init + [last] == records;
    }
  }

  lemma FilterAround<T(!new)>(front: seq<T>, x: T, rest: seq<T>, keep: T -> bool)
    requires keep(x)
    ensures Filter(front + [x] + rest, keep) == Filter(front, keep) + [x] + Filter(rest, keep)
  {
    FilterAppend(front, x, keep);
    FilterConcat(front + [x], rest, keep);
  }

  /** The entry is in the list of those that are asked for, behind as many as come before it. */
  predicate IsListedAt(all: seq<Record>, n: nat, r: Record) {
    n < |all| && all[n] == r
  }

  lemma FilteredAt(front: seq<Record>, r: Record, rest: seq<Record>, q: Query)
    requires IsAsked(r, q)
    ensures IsListedAt(Filter(front + [r] + rest, Keep(q)), AskedIn(front, q), r)
  {
    AskedIsFiltered(front, q);
    FilterAround(front, r, rest, Keep(q));
  }

  /** What is on a page of a list, counted from the front of the list. */
  lemma PageAt<T>(s: seq<T>, start: nat, size: nat, k: nat)
    requires start <= k < start + size && k < |s|
    ensures k - start < |Page(s, start, size)| && Page(s, start, size)[k - start] == s[k]
  {
  }

  lemma PageLength<T>(s: seq<T>, start: nat, size: nat)
    ensures |Page(s, start, size)| == Max(0, Min(size, |s| - start))
  {
  }

  lemma ShownOnPage(all: seq<Record>, start: nat, size: nat, n: nat, r: Record)
    requires IsListedAt(all, n, r) && start <= n < start + size
    ensures n - start < |Page(all, start, size)| && Page(all, start, size)[n - start] == r
  {
    PageAt(all, start, size, n);
  }

  lemma Clamped(limit: int, offset: int)
    ensures Limit(limit) == PageSize(limit) && Offset(offset) == PageStart(offset)
  {
  }

  /** What `list_page` returns: an entry of the listing that is asked for is on the page if, of those before it, at
      least as many as the offset says are asked for and not so many that the size is used up; its place there
      is how many more. */
  lemma PageShows(front: seq<Record>, r: Record, rest: seq<Record>, q: Query, limit: int, offset: int)
    requires IsAsked(r, q) && PageStart(offset) <= AskedIn(front, q) < PageStart(offset) + PageSize(limit)
    ensures IsListedAt(Page(Filter(front + [r] + rest, Keep(q)), Offset(offset), Limit(limit)), AskedIn(front, q) - PageStart(offset), r)
  {
    Clamped(limit, offset);
    FilteredAt(front, r, rest, q);
    ShownOnPage(Filter(front + [r] + rest, Keep(q)), PageStart(offset), PageSize(limit), AskedIn(front, q), r);
  }

  /** The length of the page leaves no room for anything else, and there are more entries if and only if more are
      asked for than the page reaches. */
  lemma PageIsFull(listing: seq<Record>, q: Query, limit: int, offset: int)
    ensures var all := Filter(listing, Keep(q));
            && |Page(all, Offset(offset), Limit(limit))| == Max(0, Min(PageSize(limit), AskedIn(listing, q) - PageStart(offset)))
            && (|all| > Offset(offset) + Limit(limit) <==> AskedIn(listing, q) > PageStart(offset) + PageSize(limit))
  {
    Clamped(limit, offset);
    AskedIsFiltered(listing, q);
    PageLength(Filter(listing, Keep(q)), PageStart(offset), PageSize(limit));
  }

  // ---- Scanning ----

  /** What the fast scan has collected from the first `i` lines; it stops at `target` records. */
  ghost predicate Collected(c: Codec, lines: seq<Line>, keep: Record -> bool, i: nat, target: nat, matched: seq<Record>) {
    i <= |lines| && matched == Filter(Parsed(c, lines[..i]), keep) && |matched| <= target
  }

  lemma CollectStep(c: Codec, lines: seq<Line>, keep: Record -> bool, i: nat)
    requires i < |lines|
    ensures Filter(Parsed(c, lines[..i + 1]), keep) ==
            Filter(Parsed(c, lines[..i]), keep) + Filter(AsSeq(ParseLine(c, lines[i].text, lines[i].number)), keep)
  {
    ParsedStep(c, lines, i);
    FilterConcat(Parsed(c, lines[..i]), AsSeq(ParseLine(c, lines[i].text, lines[i].number)), keep);
  }

  /** Enough records decide the page and whether there are more. */
  lemma EnoughForPage(c: Codec, lines: seq<Line>, keep: Record -> bool, i: nat, offset: nat, limit: nat, matched: seq<Record>)
    requires Collected(c, lines, keep, i, offset + limit + 1, matched) && (i == |lines| || |matched| == offset + limit + 1)
    ensures var all := Filter(Parsed(c, lines), keep);
            Page(matched, offset, limit) == Page(all, offset, limit) && (|matched| > offset + limit <==> |all| > offset + limit)
  {
    if i == |lines| {
      assert lines[..i] == lines;
    } else {
      RestFollows(c, lines, keep, i);
      PageOfPrefix(matched, Filter(Parsed(c, lines[i..]), keep), offset, limit);
    }
  }

  lemma RestFollows(c: Codec, lines: seq<Line>, keep: Record -> bool, i: nat)
    requires i <= |lines|
    ensures Filter(Parsed(c, lines), keep) == Filter(Parsed(c, lines[..i]), keep) + Filter(Parsed(c, lines[i..]), keep)
  {
    assert lines == lines[..i] + lines[i..];
    ParsedConcat(c, lines[..i], lines[i..]);
    FilterConcat(Parsed(c, lines[..i]), Parsed(c, lines[i..]), keep);
  }

  lemma PageOfPrefix<T>(first: seq<T>, more: seq<T>, offset: nat, limit: nat)
    requires |first| > offset + limit
    ensures Page(first + more, offset, limit) == Page(first, offset, limit)
  {
  }

  lemma CollectMore(c: Codec, lines: seq<Line>, keep: Record -> bool, i: nat, target: nat, matched: seq<Record>, found: seq<Record>)
    requires i < |lines| && Collected(c, lines, keep, i, target, matched) && |matched| < target && |found| <= 1
    requires found == Filter(AsSeq(ParseLine(c, lines[i].text, lines[i].number)), keep)
    ensures Collected(c, lines, keep, i + 1, target, matched + found)
  {
    CollectStep(c, lines, keep, i);
  }

  /** What one line contributes. */
  method Match(c: Codec, line: Line, keep: Record -> bool) returns (found: seq<Record>)
    ensures found == Filter(AsSeq(ParseLine(c, line.text, line.number)), keep) && |found| <= 1
  {
    var item := ParseLine(c, line.text, line.number);
    found := if item.Some? && keep(item.value) then [item.value] else [];
  }

  lemma NothingCollected(c: Codec, lines: seq<Line>, keep: Record -> bool, target: nat)
    ensures Collected(c, lines, keep, 0, target, [])
  {
  }

  /** The loop of the fast scan: it stops as soon as `target` records are collected. */
  method CollectUpTo(c: Codec, lines: seq<Line>, keep: Record -> bool, target: nat) returns (i: nat, matched: seq<Record>)
    ensures Collected(c, lines, keep, i, target, matched) && (i == |lines| || |matched| == target)
  {
    matched, i := [], 0;
    NothingCollected(c, lines, keep, target);
    while i < |lines| && |matched| < target
      invariant Collected(c, lines, keep, i, target, matched)
    {
      var found := Match(c, lines[i], keep);
      CollectMore(c, lines, keep, i, target, matched, found);
      matched, i := matched + found, i + 1;
    }
  }

  /** The fast scan: enough of the matching records to decide the page and whether there are more. */
  method Collect(c: Codec, lines: seq<Line>, keep: Record -> bool, offset: nat, limit: nat) returns (matched: seq<Record>)
    ensures var all := Filter(Parsed(c, lines), keep);
            Page(matched, offset, limit) == Page(all, offset, limit) && (|matched| > offset + limit <==> |all| > offset + limit)
  {
    var i;
    i, matched := CollectUpTo(c, lines, keep, offset + limit + 1);
    EnoughForPage(c, lines, keep, i, offset, limit, matched);
  }

  lemma PageGrows<T>(s: seq<T>, x: T, offset: nat, limit: nat)
    ensures Page(s + [x], offset, limit) ==
            Page(s, offset, limit) + if |s| + 1 > offset && |Page(s, offset, limit)| < limit then [x] else []
  {
  }

  /** What the full scan holds after the records `seen`. */
  ghost predicate Scanned(seen: seq<Record>, offset: nat, limit: nat, items: seq<Record>, total: nat) {
    total == |seen| && items == Page(seen, offset, limit)
  }

  lemma ScanStep(seen: seq<Record>, r: Record, offset: nat, limit: nat, items: seq<Record>, total: nat)
    requires Scanned(seen, offset, limit, items, total)
    ensures Scanned(seen + [r], offset, limit, items + if total + 1 > offset && |items| < limit then [r] else [], total + 1)
  {
    PageGrows(seen, r, offset, limit);
  }

  /** The full scan: it counts every match and keeps those of the page. */
  method Scan(c: Codec, lines: seq<Line>, keep: Record -> bool, offset: nat, limit: nat) returns (items: seq<Record>, total: nat)
    ensures Scanned(Filter(Parsed(c, lines), keep), offset, limit, items, total)
  {
    items, total := [], 0;
    for i := 0 to |lines|
      invariant Scanned(Filter(Parsed(c, lines[..i]), keep), offset, limit, items, total)
    {
      CollectStep(c, lines, keep, i);
      ghost var seen := Filter(Parsed(c, lines[..i]), keep);
      var item := ParseLine(c, lines[i].text, lines[i].number);
      if item.Some? && keep(item.value) {
        ScanStep(seen, item.value, offset, limit, items, total);
        total := total + 1;
        if total > offset && |items| < limit {
          items := items + [item.value];
        } else {
          assert items + [] == items;
        }
        assert Filter(Parsed(c, lines[..i + 1]), keep) == seen + [item.value];
      } else {
        assert Filter(Parsed(c, lines[..i + 1]), keep) == seen;
      }
    }
    assert lines[..|lines|] == lines;
  }

  /** The outcome of a rewrite on the listing. */
  lemma RewriteOutcome(c: Codec, content: string, drop: Record -> bool)
    requires CodecOk(c) && CleanBreaks(content)
    ensures var after, removed := FileOf(Kept(c, RewriteLines(content), drop)), Dropped(c, RewriteLines(content), drop);
            && Listing(c, after) == Filter(Listing(c, content), KeepUnless(drop))
            && removed == |Listing(c, content)| - |Listing(c, after)|
            && (removed == 0 ==> Filter(Listing(c, content), KeepUnless(drop)) == Listing(c, content))
            && FileOk(after)
  {
    RewriteKeepsListing(c, content, drop);
    RewriteCounts(c, content, drop);
    FilterFull(Listing(c, content), KeepUnless(drop));
    if Dropped(c, RewriteLines(content), drop) == 0 {
      FilterAll(Listing(c, content), KeepUnless(drop));
    }
  }

  // ---- The service ----

  class LogService {
    const codec: Codec
    var content: string

    ghost predicate Valid()
      reads this
    {
      CodecOk(codec) && FileOk(content)
    }

    constructor (c: Codec)
      requires CodecOk(c)
      ensures Valid() && codec == c && content == ""
    {
      codec, content := c, "";
    }

    /** `add`. */
    method Add(item: Record)
      requires Valid() && item.id != ""
      modifies this
      ensures Valid() && Listing(codec, content) == [item] + Listing(codec, old(content))
    {
      AppendedIsListedFirst(codec, content, item);
      content := content + (codec.serialize(item) + [NL]);
    }

    /** `_list_page_fast`: the recent-lines reader, stopped as soon as the page and one more record are there. */
    method ListPageFast(kind: string, limit: nat, offset: nat) returns (items: seq<Record>, hasMore: bool)
      requires CodecOk(codec)
      ensures var all := Filter(Listing(codec, content), KindTest(kind));
              && items == Page(all, offset, limit)
              && (hasMore <==> if kind != "" then |all| > offset + limit else offset + |items| < |Lines(content)|)
    {
      var totalLines := LineCount(content, BLOCK);
      var lines := IterRecentRawLines(content, BLOCK, totalLines, Some(totalLines));
      var matched := Collect(codec, lines, KindTest(kind), offset, limit);
      RecentIsListing(codec, content);
      items := Page(matched, offset, limit);
      hasMore := if kind != "" then |matched| > offset + limit else offset + |items| < totalLines;
    }

    /** The full scan of `list_page`. */
    method ListPageFull(keep: Record -> bool, limit: nat, offset: nat) returns (items: seq<Record>, total: nat, hasMore: bool)
      requires limit >= 1
      ensures var all := Filter(Listing(codec, content), keep);
              items == Page(all, offset, limit) && total == |all| && (hasMore <==> |all| > offset + limit)
    {
      var lines := IterRawLinesReverse(content, BLOCK);
      items, total := Scan(codec, lines, keep, offset, limit);
      ParsedBackwards(codec, Lines(content));
      hasMore := offset + |items| < total;
    }

    /** `list_page`. */
    method ListPage(q: Query, limit: int, offset: int) returns (items: seq<Record>, hasMore: bool)
      requires CodecOk(codec)
      ensures var all := Filter(Listing(codec, content), Keep(q));
              && items == Page(all, Offset(offset), Limit(limit))
              && (q.kind != "" || q.precise.Some? ==> (hasMore <==> |all| > Offset(offset) + Limit(limit)))
              && (q.kind == "" && q.precise.None? ==> (hasMore <==> Offset(offset) + |items| < |Lines(content)|))
    {
      if q.precise.None? {
        items, hasMore := ListPageFast(q.kind, Limit(limit), Offset(offset));
      } else {
        var total;
        items, total, hasMore := ListPageFull(Keep(q), Limit(limit), Offset(offset));
      }
    }

    /** The loop that `delete` and `cleanup_old` share: every line is rewritten or dropped. */
    method RewriteLoop(lines: seq<string>, drop: Record -> bool) returns (kept: seq<string>, removed: nat)
      ensures kept == Kept(codec, lines, drop) && removed == Dropped(codec, lines, drop)
    {
      kept, removed := [], 0;
      for number := 0 to |lines|
        invariant kept == Kept(codec, lines[..number], drop) && removed == Dropped(codec, lines[..number], drop)
      {
        assert lines[..number + 1][..number] == lines[..number];
        var raw := lines[number];
        var item := ParseLine(codec, raw, number);
        if item.None? {
          kept := kept + [raw];
        } else if drop(item.value) {
          removed := removed + 1;
        } else {
          kept := kept + [codec.serialize(item.value)];
        }
      }
      assert lines[..|lines|] == lines;
    }

    /** The rewrite; `cleanup_old` leaves the file alone when nothing is dropped, `delete` does not. */
    method RewriteFile(drop: Record -> bool, always: bool) returns (removed: nat)
      requires CodecOk(codec) && CleanBreaks(content)
      modifies this`content
      ensures Listing(codec, content) == Filter(Listing(codec, old(content)), KeepUnless(drop))
      ensures removed == |Listing(codec, old(content))| - |Listing(codec, content)|
      ensures if removed == 0 && !always then content == old(content) else FileOk(content)
    {
      RewriteOutcome(codec, content, drop);
      var kept;
      kept, removed := RewriteLoop(RewriteLines(content), drop);
      if removed != 0 || always {
        content := FileOf(kept);
      }
    }

    /** `delete`. */
    method Delete(ids: seq<string>) returns (removed: nat)
      requires CodecOk(codec) && CleanBreaks(content)
      modifies this`content
      ensures Listing(codec, content) == Filter(Listing(codec, old(content)), KeepUnless(IdTest(ids)))
      ensures forall r :: r in Listing(codec, content) <==> r in Listing(codec, old(content)) && (r.id == "" || r.id !in ids)
      ensures removed == |Listing(codec, old(content))| - |Listing(codec, content)|
      ensures if forall id :: id in ids ==> id == "" then content == old(content) else FileOk(content)
    {
      if forall id :: id in ids ==> id == "" {
        FilterAll(Listing(codec, content), KeepUnless(IdTest(ids)));
        return 0;
      }
      removed := RewriteFile(IdTest(ids), true);
    }

    /** `cleanup_old`. */
    method CleanupOld(now: int, retentionDays: int) returns (removed: nat)
      requires CodecOk(codec) && CleanBreaks(content)
      modifies this`content
      ensures Listing(codec, content) == Filter(Listing(codec, old(content)), KeepUnless(OldTest(now, retentionDays)))
      ensures forall r :: r in Listing(codec, content) <==>
                && r in Listing(codec, old(content))
                && (r.time.None? || now - r.time.value <= 86400 * if retentionDays < 1 then 1 else retentionDays)
      ensures removed == |Listing(codec, old(content))| - |Listing(codec, content)|
      ensures if removed == 0 then content == old(content) else FileOk(content)
    {
      removed := RewriteFile(OldTest(now, retentionDays), false);
    }
  }

  /** The records that a deletion names; an empty id names nothing. */
  function IdTest(ids: seq<string>): Record -> bool {
    (r: Record) => r.id != "" && r.id in ids
  }

  function OldTest(now: int, retentionDays: int): Record -> bool {
    (r: Record) => r.time.Some? && r.time.value < now - Max(1, retentionDays) * 86400
  }

  /** Without any filter, "has more" compares with the number of lines: it is right for every page if and
      only if every line parses. */
  lemma UnfilteredHasMoreIff(c: Codec, content: string)
    ensures (forall offset: nat, limit: nat :: limit >= 1 ==>
               (offset + |Page(Listing(c, content), offset, limit)| < |Lines(content)| <==> |Listing(c, content)| > offset + limit))
            <==> |Listing(c, content)| == |Lines(content)|
  {
    var all, lines := Listing(c, content), |Lines(content)|;
    NoMoreThanLines(c, Lines(content));
    if |all| != lines {
      assert |Page(all, |all|, 1)| == 0;
      assert !(|all| + |Page(all, |all|, 1)| < lines <==> |all| > |all| + 1);
    }
  }

  lemma {:induction false} NoMoreThanLines(c: Codec, lines: seq<string>)
    ensures |Records(c, lines)| <= |lines|
  {
    if lines != [] {
      NoMoreThanLines(c, lines[..|lines| - 1]);
    }
  }
}
