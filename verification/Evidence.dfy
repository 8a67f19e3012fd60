/** Bounded retrieval of archived evidence. */
module Evidence {
  // Searching archived sources page by page, and reading one source by characters or by lines.

  import opened Wrappers

  const MAX_SEARCH_SOURCES := 32
  const MAX_SEARCH_CHARS := 4 * 1024 * 1024
  const MAX_READ_CHARS := 4096
  const MAX_READ_LINES := 200
  const MAX_QUERY := 200

  /** A listed source: its id, the caption searched besides its text, and its recorded length. */
  datatype Source = Source(id: string, caption: string, chars: nat)

  /** A source's full redacted text, or a failed read. */
  type Reader = string -> Option<string>

  // ---------------------------------------------------------------- finding text

  predicate OccursAt(text: string, query: string, at: nat) {
    at + |query| <= |text| && text[at..at + |query|] == query
  }

  function FirstFrom(text: string, query: string, k: nat): Option<nat>
    requires k <= |text|
    decreases |text| - k
  {
    if OccursAt(text, query, k) then Some(k) else if k == |text| then None else FirstFrom(text, query, k + 1)
  }

  function IndexOf(text: string, query: string): Option<nat> {
    FirstFrom(text, query, 0)
  }

  lemma {:induction false} FirstFromIs(text: string, query: string, k: nat)
    requires k <= |text|
    ensures var r := FirstFrom(text, query, k);
            && (r.Some? ==> k <= r.value <= |text| && OccursAt(text, query, r.value) && forall i | k <= i < r.value :: !OccursAt(text, query, i))
            && (r.None? ==> forall i | k <= i <= |text| :: !OccursAt(text, query, i))
    decreases |text| - k
  {
    if !OccursAt(text, query, k) && k < |text| {
      FirstFromIs(text, query, k + 1);
    }
  }

  function Newlines(text: string): nat {
    if text == [] then 0 else Newlines(text[1..]) + if text[0] == '\n' then 1 else 0
  }

  /** Just past the next newline, or the end. */
  function NextLine(text: string, k: nat): (n: nat)
    requires k <= |text|
    ensures k <= n <= |text| && (k < |text| ==> k < n)
    decreases |text| - k
  {
    if k == |text| then k else if text[k] == '\n' then k + 1 else NextLine(text, k + 1)
  }

  /** Skip some lines. */
  function SkipLines(text: string, k: nat, lines: nat): (n: nat)
    requires k <= |text|
    ensures k <= n <= |text|
    decreases lines
  {
    if lines == 0 || k == |text| then k else SkipLines(text, NextLine(text, k), lines - 1)
  }

  // ---------------------------------------------------------------- what one source contributes

  datatype Match = Match(id: string, caption: string, inText: bool, line: nat, offset: nat, excerpt: string)

  datatype Outcome = Hit(m: Match) | Miss | Unreadable | Oversize

  function Least(a: nat, b: nat): nat {
    if a <= b then a else b
  }

  function MatchAt(s: Source, text: string, at: nat, inText: bool): Match
    requires at <= |text|
  {
    var start := if at >= 80 then at - 80 else 0;
    Match(s.id, s.caption, inText, Newlines(text[..at]) + 1, start, text[start..Least(|text|, start + 320)])
  }

  function OutcomeOf(s: Source, read: Reader, query: string): Outcome {
    if s.chars > MAX_SEARCH_CHARS then Oversize
    else match read(s.id)
      case None => Unreadable
      case Some(text) =>
        FirstFromIs(text, query, 0);
        match IndexOf(text, query)
        case Some(at) => Hit(MatchAt(s, text, at, true))
        case None => if IndexOf(s.caption, query).Some? then Hit(MatchAt(s, text, 0, false)) else Miss
  }

  function Hits(ss: seq<Source>, read: Reader, query: string): seq<Match> {
    if ss == [] then []
    else
      var o := OutcomeOf(ss[|ss| - 1], read, query);
      Hits(ss[..|ss| - 1], read, query) + if o.Hit? then [o.m] else []
  }

  function Unavailable(ss: seq<Source>, read: Reader, query: string): seq<string> {
    if ss == [] then []
    else
      var o := OutcomeOf(ss[|ss| - 1], read, query);
      Unavailable(ss[..|ss| - 1], read, query) + if o.Unreadable? || o.Oversize? then [ss[|ss| - 1].id] else []
  }

  function Scanned(ss: seq<Source>): nat {
    if ss == [] then 0 else Scanned(ss[..|ss| - 1]) + if ss[|ss| - 1].chars > MAX_SEARCH_CHARS then 0 else 1
  }

  function ScannedChars(ss: seq<Source>): nat {
    if ss == [] then 0 else ScannedChars(ss[..|ss| - 1]) + if ss[|ss| - 1].chars > MAX_SEARCH_CHARS then 0 else ss[|ss| - 1].chars
  }

  lemma HitsMore(ss: seq<Source>, s: Source, read: Reader, query: string)
    ensures var o := OutcomeOf(s, read, query);
            && Hits(ss + [s], read, query) == Hits(ss, read, query) + (if o.Hit? then [o.m] else [])
            && Unavailable(ss + [s], read, query) == Unavailable(ss, read, query) + (if o.Unreadable? || o.Oversize? then [s.id] else [])
            && Scanned(ss + [s]) == Scanned(ss) + (if s.chars > MAX_SEARCH_CHARS then 0 else 1)
            && ScannedChars(ss + [s]) == ScannedChars(ss) + (if s.chars > MAX_SEARCH_CHARS then 0 else s.chars)
  {
    assert (ss + [s])[..|ss|] == ss;
  }

  lemma HitsNone(read: Reader, query: string)
    ensures Hits([], read, query) == [] && Unavailable([], read, query) == [] && Scanned([]) == 0 && ScannedChars([]) == 0
  {
  }

  lemma {:induction false} HitsConcat(a: seq<Source>, b: seq<Source>, read: Reader, query: string)
    ensures Hits(a + b, read, query) == Hits(a, read, query) + Hits(b, read, query)
    ensures Unavailable(a + b, read, query) == Unavailable(a, read, query) + Unavailable(b, read, query)
    ensures Scanned(a + b) == Scanned(a) + Scanned(b)
  {
    hide Hits, Unavailable, Scanned, ScannedChars, OutcomeOf;
    if b == [] {
      assert a + b == a;
      HitsNone(read, query);
    } else {
      var (init, s) := (b[..|b| - 1], b[|b| - 1]);
      HitsConcat(a, init, read, query);
      HitsMore(a + init, s, read, query);
      HitsMore(init, s, read, query);
      assert a + b == a + init + [s] && b == init + [s];
    }
  }

  // ---------------------------------------------------------------- one page of a search

  datatype Page = Page(matches: seq<Match>, scanned: nat, unavailable: seq<string>, next: Option<nat>)

  /** Where a page ends: its next offset, or the end of the list. */
  function EndOf(ss: seq<Source>, page: Page): nat {
    if page.next.Some? then page.next.value else |ss|
  }

  /** What a page from an offset is: the outcomes of a run of sources, within the bounds, ended only
      by a bound; it makes progress unless there is nothing left or no match is wanted. */
  predicate IsPage(ss: seq<Source>, read: Reader, query: string, offset: nat, limit: nat, page: Page) {
    var o, e := Least(offset, |ss|), EndOf(ss, page);
    && o <= e <= |ss| && (page.next.Some? <==> e < |ss|)
    && page.matches == Hits(ss[o..e], read, query) && page.unavailable == Unavailable(ss[o..e], read, query)
    && page.scanned == Scanned(ss[o..e]) <= MAX_SEARCH_SOURCES && ScannedChars(ss[o..e]) <= MAX_SEARCH_CHARS && |page.matches| <= limit
    && (e < |ss| ==> page.scanned == MAX_SEARCH_SOURCES || |page.matches| == limit || ScannedChars(ss[o..e]) + ss[e].chars > MAX_SEARCH_CHARS
                     || (e == o + 1 && ss[o].chars > MAX_SEARCH_CHARS))
    && (o < |ss| && limit > 0 ==> o < e)
    && (o < e ==> BelowBounds(ss[o..e - 1], read, query, limit))
    && (forall i | o <= i < e :: ss[i].chars > MAX_SEARCH_CHARS ==> e == o + 1)
  }

  /** Another source may still be looked at after these. */
  predicate BelowBounds(ss: seq<Source>, read: Reader, query: string, limit: nat) {
    |Hits(ss, read, query)| < limit && Scanned(ss) < MAX_SEARCH_SOURCES
  }

  function WithId(ss: seq<Source>, id: string): seq<Source> {
    if ss == [] then [] else WithId(ss[..|ss| - 1], id) + if ss[|ss| - 1].id == id then [ss[|ss| - 1]] else []
  }

  function Chosen(ss: seq<Source>, id: string): seq<Source> {
    if id == "" then ss else WithId(ss, id)
  }

  /** Search the sources, or those of one id, from an offset. */
  method Search(list: seq<Source>, read: Reader, blank: string -> bool, query: string, offset: nat, limit: nat, id: string)
    returns (r: Option<Page>)
    ensures r.Some? <==> !blank(query) && |query| <= MAX_QUERY && (id == "" || Chosen(list, id) != [])
    ensures r.Some? ==> IsPage(Chosen(list, id), read, query, offset, limit, r.value)
  {
    if blank(query) || |query| > MAX_QUERY { return None; }
    var ss := Chosen(list, id);
    if id != "" && ss == [] { return None; }
    var page := SearchPage(ss, read, query, offset, limit);
    r := Some(page);
  }

  /** What has been gathered is what the sources from o to e contribute. */
  predicate Covers(ss: seq<Source>, read: Reader, query: string, o: nat, e: nat, matches: seq<Match>, unavailable: seq<string>,
                   scanned: nat, chars: nat) {
    && o <= e <= |ss|
    && matches == Hits(ss[o..e], read, query) && unavailable == Unavailable(ss[o..e], read, query)
    && scanned == Scanned(ss[o..e]) && chars == ScannedChars(ss[o..e])
  }

  lemma CoversNone(ss: seq<Source>, read: Reader, query: string, o: nat)
    requires o <= |ss|
    ensures Covers(ss, read, query, o, o, [], [], 0, 0)
  {
    assert ss[o..o] == [];
  }

  lemma CoversMore(ss: seq<Source>, read: Reader, query: string, o: nat, e: nat, matches: seq<Match>, unavailable: seq<string>,
                   scanned: nat, chars: nat)
    requires Covers(ss, read, query, o, e, matches, unavailable, scanned, chars) && e < |ss|
    ensures var (s, r) := (ss[e], OutcomeOf(ss[e], read, query));
            && (r.Oversize? <==> s.chars > MAX_SEARCH_CHARS)
            && Covers(ss, read, query, o, e + 1, matches + (if r.Hit? then [r.m] else []),
                      unavailable + (if r.Unreadable? || r.Oversize? then [s.id] else []),
                      scanned + (if r.Oversize? then 0 else 1), chars + (if r.Oversize? then 0 else s.chars))
  {
    assert ss[o..e + 1] == ss[o..e] + [ss[e]];
    HitsMore(ss[o..e], ss[e], read, query);
    NotOversize(ss[e], read, query);
    hide Hits, Unavailable, Scanned, ScannedChars, OutcomeOf;
  }

  lemma CoversBelow(ss: seq<Source>, read: Reader, query: string, o: nat, e: nat, matches: seq<Match>, unavailable: seq<string>,
                    scanned: nat, chars: nat, limit: nat)
    requires Covers(ss, read, query, o, e, matches, unavailable, scanned, chars) && |matches| < limit && scanned < MAX_SEARCH_SOURCES
    ensures o <= e <= |ss| && BelowBounds(ss[o..e], read, query, limit)
  {
  }

  method SearchPage(ss: seq<Source>, read: Reader, query: string, offset: nat, limit: nat) returns (page: Page)
    ensures IsPage(ss, read, query, offset, limit, page)
  {
    var o := Least(offset, |ss|);
    var cursor: nat, scanned: nat, chars: nat := o, 0, 0;
    var matches: seq<Match>, unavailable: seq<string> := [], [];
    CoversNone(ss, read, query, o);
    var stopped := false;
    hide Covers, OutcomeOf, BelowBounds;
    while !stopped && cursor < |ss| && scanned < MAX_SEARCH_SOURCES && |matches| < limit
      invariant o <= cursor <= |ss| && Covers(ss, read, query, o, cursor, matches, unavailable, scanned, chars)
      invariant scanned <= MAX_SEARCH_SOURCES && chars <= MAX_SEARCH_CHARS && |matches| <= limit
      invariant !stopped ==> (scanned == 0 <==> cursor == o) && (scanned == 0 ==> chars == 0)
      invariant stopped ==> o < cursor && (cursor < |ss| ==> chars + ss[cursor].chars > MAX_SEARCH_CHARS
                                                             || (cursor == o + 1 && ss[o].chars > MAX_SEARCH_CHARS))
      invariant o < cursor ==> BelowBounds(ss[o..cursor - 1], read, query, limit)
      invariant forall i | o <= i < cursor :: ss[i].chars > MAX_SEARCH_CHARS ==> stopped && cursor == o + 1
      decreases |ss| - cursor, if stopped then 0 else 1
    {
      var source := ss[cursor];
      CoversMore(ss, read, query, o, cursor, matches, unavailable, scanned, chars);
      CoversBelow(ss, read, query, o, cursor, matches, unavailable, scanned, chars, limit);
      assert matches + [] == matches && unavailable + [] == unavailable;
      if chars + source.chars > MAX_SEARCH_CHARS {
        if scanned == 0 {
          unavailable := unavailable + [source.id];
          cursor := cursor + 1;
        }
        stopped := true;
        continue;
      }
      cursor := cursor + 1;
      scanned := scanned + 1;
      chars := chars + source.chars;
      var outcome := OutcomeOf(source, read, query);
      match outcome {
        case Unreadable => unavailable := unavailable + [source.id];
        case Hit(m) => matches := matches + [m];
        case _ =>
      }
    }
    page := Page(matches, scanned, unavailable, if cursor < |ss| then Some(cursor) else None);
    PageFromCover(ss, read, query, offset, limit, cursor, page, chars);
  }

  lemma PageFromCover(ss: seq<Source>, read: Reader, query: string, offset: nat, limit: nat, e: nat, page: Page, chars: nat)
    requires var o := Least(offset, |ss|);
             && o <= e <= |ss| && Covers(ss, read, query, o, e, page.matches, page.unavailable, page.scanned, chars)
             && page.next == (if e < |ss| then Some(e) else None)
             && page.scanned <= MAX_SEARCH_SOURCES && chars <= MAX_SEARCH_CHARS && |page.matches| <= limit
             && (e < |ss| ==> page.scanned == MAX_SEARCH_SOURCES || |page.matches| == limit || chars + ss[e].chars > MAX_SEARCH_CHARS
                              || (e == o + 1 && ss[o].chars > MAX_SEARCH_CHARS))
             && (o < |ss| && limit > 0 ==> o < e)
             && (o < e ==> BelowBounds(ss[o..e - 1], read, query, limit))
             && (forall i | o <= i < e :: ss[i].chars > MAX_SEARCH_CHARS ==> e == o + 1)
    ensures IsPage(ss, read, query, offset, limit, page)
  {
  }

  lemma NotOversize(s: Source, read: Reader, query: string)
    ensures OutcomeOf(s, read, query).Oversize? <==> s.chars > MAX_SEARCH_CHARS
  {
  }

  /** Pages that follow each other from the first source to the end. */
  predicate Follows(ss: seq<Source>, read: Reader, query: string, limit: nat, pages: seq<Page>) {
    && pages != [] && IsPage(ss, read, query, 0, limit, pages[0]) && pages[|pages| - 1].next.None?
    && forall i: nat | i + 1 < |pages| :: Linked(ss, read, query, limit, pages, i)
  }

  predicate Linked(ss: seq<Source>, read: Reader, query: string, limit: nat, pages: seq<Page>, i: nat)
    requires i + 1 < |pages|
  {
    pages[i].next.Some? && IsPage(ss, read, query, pages[i].next.value, limit, pages[i + 1])
  }

  function AllMatches(pages: seq<Page>): seq<Match> {
    if pages == [] then [] else AllMatches(pages[..|pages| - 1]) + pages[|pages| - 1].matches
  }

  function AllUnavailable(pages: seq<Page>): seq<string> {
    if pages == [] then [] else AllUnavailable(pages[..|pages| - 1]) + pages[|pages| - 1].unavailable
  }

  function AllScanned(pages: seq<Page>): nat {
    if pages == [] then 0 else AllScanned(pages[..|pages| - 1]) + pages[|pages| - 1].scanned
  }

  lemma NextIsInside(ss: seq<Source>, read: Reader, query: string, limit: nat, pages: seq<Page>, i: nat)
    requires Follows(ss, read, query, limit, pages) && i < |pages|
    ensures EndOf(ss, pages[i]) <= |ss| && (pages[i].next.Some? ==> pages[i].next.value < |ss|)
  {
    if i > 0 { assert Linked(ss, read, query, limit, pages, i - 1); }
  }

  lemma {:induction false} PagesCover(ss: seq<Source>, read: Reader, query: string, limit: nat, pages: seq<Page>, n: nat)
    requires Follows(ss, read, query, limit, pages) && 0 < n <= |pages|
    ensures var e := EndOf(ss, pages[n - 1]);
            && e <= |ss| && AllMatches(pages[..n]) == Hits(ss[..e], read, query)
            && AllUnavailable(pages[..n]) == Unavailable(ss[..e], read, query) && AllScanned(pages[..n]) == Scanned(ss[..e])
            && (limit > 0 && |ss| > 0 ==> n <= e)
  {
    hide Hits, Unavailable, Scanned, ScannedChars;
    var page := pages[n - 1];
    var e := EndOf(ss, page);
    assert pages[..n][..n - 1] == pages[..n - 1];
    if n == 1 {
      assert ss[0..e] == ss[..e];
    } else {
      PagesCover(ss, read, query, limit, pages, n - 1);
      assert Linked(ss, read, query, limit, pages, n - 2);
      NextIsInside(ss, read, query, limit, pages, n - 2);
      var o := pages[n - 2].next.value;
      HitsConcat(ss[..o], ss[o..e], read, query);
      assert ss[..e] == ss[..o] + ss[o..e];
    }
  }

  /** Following the next offset to the end visits every source exactly once, in order: the pages'
      matches, unavailable ids and scanned counts are those of the whole list; and with a positive
      limit there are at most as many pages as sources. */
  lemma PagingIsComplete(ss: seq<Source>, read: Reader, query: string, limit: nat, pages: seq<Page>)
    requires Follows(ss, read, query, limit, pages)
    ensures AllMatches(pages) == Hits(ss, read, query) && AllUnavailable(pages) == Unavailable(ss, read, query)
    ensures AllScanned(pages) == Scanned(ss)
    ensures limit > 0 ==> |pages| <= |ss| || |pages| == 1
  {
    PagesCover(ss, read, query, limit, pages, |pages|);
    assert pages[..|pages|] == pages && ss[..|ss|] == ss;
    NextIsInside(ss, read, query, limit, pages, 0);
    if |pages| > 1 { assert Linked(ss, read, query, limit, pages, 0); }
  }

  /** A page makes progress exactly when something is left and at least one match is wanted; with
      no match wanted, following the next offset would never end. */
  lemma ProgressExactly(ss: seq<Source>, read: Reader, query: string, offset: nat, limit: nat, page: Page)
    requires IsPage(ss, read, query, offset, limit, page)
    ensures EndOf(ss, page) > Least(offset, |ss|) <==> offset < |ss| && limit > 0
    ensures offset < |ss| && limit == 0 ==> page.next == Some(offset)
  {
    hide Hits, Unavailable, Scanned, ScannedChars;
  }

  /** A reader who asks again from each next offset reaches the end of the list whenever a match is
      wanted. */
  method FollowOffsets(ss: seq<Source>, read: Reader, query: string, limit: nat) returns (pages: seq<Page>)
    requires limit > 0
    ensures Follows(ss, read, query, limit, pages)
    ensures |pages| <= |ss| || |pages| == 1
  {
    hide IsPage;
    var page := SearchPage(ss, read, query, 0, limit);
    pages := [page];
    PageEnds(ss, read, query, 0, limit, page);
    while page.next.Some?
      invariant pages != [] && page == pages[|pages| - 1] && IsPage(ss, read, query, 0, limit, pages[0])
      invariant page.next.Some? ==> page.next.value < |ss|
      invariant forall i: nat | i + 1 < |pages| :: Linked(ss, read, query, limit, pages, i)
      decreases |ss| - EndOf(ss, page)
    {
      var offset := page.next.value;
      ghost var before := pages;
      page := SearchPage(ss, read, query, offset, limit);
      pages := pages + [page];
      PageEnds(ss, read, query, offset, limit, page);
      forall i: nat | i + 1 < |pages| ensures Linked(ss, read, query, limit, pages, i) {
        assert i + 1 < |before| ==> Linked(ss, read, query, limit, before, i);
      }
    }
    PagingIsComplete(ss, read, query, limit, pages);
  }

  /** With a match wanted the next offset is further on, and inside the list. */
  lemma PageEnds(ss: seq<Source>, read: Reader, query: string, offset: nat, limit: nat, page: Page)
    requires IsPage(ss, read, query, offset, limit, page) && limit > 0
    ensures EndOf(ss, page) <= |ss| && (page.next.Some? ==> page.next.value < |ss|)
    ensures offset < |ss| ==> offset < EndOf(ss, page)
  {
    hide Hits, Unavailable, Scanned, ScannedChars;
  }

  /** One source more contributes at least nothing. */
  lemma {:induction false} Grows(ss: seq<Source>, read: Reader, query: string, k: nat)
    requires k <= |ss|
    ensures |Hits(ss[..k], read, query)| <= |Hits(ss, read, query)| && Scanned(ss[..k]) <= Scanned(ss) && ScannedChars(ss[..k]) <= ScannedChars(ss)
    decreases |ss| - k
  {
    if k < |ss| {
      Grows(ss, read, query, k + 1);
      assert ss[..k + 1] == ss[..k] + [ss[k]];
      HitsMore(ss[..k], ss[k], read, query);
    } else {
      assert ss[..k] == ss;
    }
  }

  /** A shorter run within a longer one. */
  lemma RunCounts(ss: seq<Source>, read: Reader, query: string, o: nat, e: nat, f: nat)
    requires o <= e < f <= |ss|
    ensures |Hits(ss[o..e], read, query)| <= |Hits(ss[o..f - 1], read, query)| && Scanned(ss[o..e]) <= Scanned(ss[o..f - 1])
    ensures ss[e].chars <= MAX_SEARCH_CHARS ==> ScannedChars(ss[o..e]) + ss[e].chars <= ScannedChars(ss[o..f])
  {
    var (run, mid, all) := (ss[o..e], ss[o..f - 1], ss[o..f]);
    hide Hits, Unavailable, Scanned, ScannedChars, OutcomeOf;
    TakeOfSlice(ss, o, f - 1, e - o);
    TakeOfSlice(ss, o, f, e + 1 - o);
    assert ss[o..e + 1] == run + [ss[e]];
    Grows(mid, read, query, e - o);
    Grows(all, read, query, e + 1 - o);
    HitsMore(run, ss[e], read, query);
  }

  lemma TakeOfSlice(ss: seq<Source>, o: nat, f: nat, k: nat)
    requires o <= f <= |ss| && k <= f - o
    ensures ss[o..f][..k] == ss[o..o + k]
  {
  }

  lemma NotShorter(ss: seq<Source>, read: Reader, query: string, offset: nat, limit: nat, a: Page, b: Page)
    requires IsPage(ss, read, query, offset, limit, a) && IsPage(ss, read, query, offset, limit, b)
    ensures EndOf(ss, a) >= EndOf(ss, b)
  {
    hide Hits, Unavailable, Scanned, ScannedChars, OutcomeOf;
    var o, e, f := Least(offset, |ss|), EndOf(ss, a), EndOf(ss, b);
    if e < f {
      RunCounts(ss, read, query, o, e, f);
    }
  }

  /** The page from an offset is determined by the sources and the bounds. */
  lemma PageUnique(ss: seq<Source>, read: Reader, query: string, offset: nat, limit: nat, a: Page, b: Page)
    requires IsPage(ss, read, query, offset, limit, a) && IsPage(ss, read, query, offset, limit, b)
    ensures a == b
  {
    NotShorter(ss, read, query, offset, limit, a, b);
    NotShorter(ss, read, query, offset, limit, b, a);
    hide Hits, Unavailable, Scanned, ScannedChars, OutcomeOf;
  }

  /** Every source is counted as scanned or reported as unavailable; only one whose recorded length
      exceeds the whole search bound is not scanned. */
  lemma AccountedFor(s: Source, read: Reader, query: string)
    ensures Scanned([s]) == 1 || Unavailable([s], read, query) == [s.id]
    ensures Scanned([s]) == 0 <==> OutcomeOf(s, read, query).Oversize?
  {
    HitsMore([], s, read, query);
    assert [] + [s] == [s];
  }

  // ---------------------------------------------------------------- opening what search reported

  lemma {:induction false} NewlinesSplit(a: string, b: string)
    ensures Newlines(a + b) == Newlines(a) + Newlines(b)
  {
    if a == [] {
      assert a + b == b;
    } else {
      assert (a + b)[1..] == a[1..] + b;
      NewlinesSplit(a[1..], b);
    }
  }

  /** With a newline ahead, the next line starts just past the first one. */
  lemma {:induction false} NextLineIs(text: string, k: nat, at: nat)
    requires k <= at <= |text| && Newlines(text[k..at]) > 0
    ensures NextLine(text, k) <= at && Newlines(text[NextLine(text, k)..at]) == Newlines(text[k..at]) - 1
    ensures NextLine(text, k) > 0 && text[NextLine(text, k) - 1] == '\n'
    decreases at - k
  {
    assert text[k..at][1..] == text[k + 1..at];
    if text[k] != '\n' {
      NextLineIs(text, k + 1, at);
    }
  }

  /** Skipping as many lines as there are newlines before a position lands on that position's line. */
  lemma {:induction false} SkipReaches(text: string, k: nat, at: nat)
    requires k <= at <= |text| && (k == 0 || text[k - 1] == '\n')
    ensures var start := SkipLines(text, k, Newlines(text[k..at]));
            start <= at && Newlines(text[start..at]) == 0 && (start == 0 || text[start - 1] == '\n')
    decreases at - k
  {
    if Newlines(text[k..at]) > 0 {
      NextLineIs(text, k, at);
      SkipReaches(text, NextLine(text, k), at);
    }
  }

  /** Opening the line a text match reports starts at the line that contains the match. */
  lemma ReportedLineContainsMatch(s: Source, text: string, read: Reader, query: string)
    requires read(s.id) == Some(text) && OutcomeOf(s, read, query).Hit? && OutcomeOf(s, read, query).m.inText
    ensures var m := OutcomeOf(s, read, query).m;
            var start := SkipLines(text, 0, m.line - 1);
            exists at: nat :: OccursAt(text, query, at) && start <= at && Newlines(text[start..at]) == 0
                         && (start == 0 || text[start - 1] == '\n') && forall i | 0 <= i < at :: !OccursAt(text, query, i)
  {
    FirstFromIs(text, query, 0);
    var at := IndexOf(text, query).value;
    assert text[0..at] == text[..at];
    SkipReaches(text, 0, at);
  }

  lemma ShownInSlice(text: string, query: string, at: nat, a: nat, b: nat)
    requires OccursAt(text, query, at) && a <= at && at + |query| <= b <= |text|
    ensures OccursAt(text[a..b], query, at - a)
  {
    var (part, k) := (text[a..b], at - a);
    var (found, sought) := (part[k..k + |query|], text[at..at + |query|]);
    assert forall i | 0 <= i < |query| :: found[i] == sought[i];
    assert found == query;
  }

  /** The excerpt of a text match shows the whole match. */
  lemma ExcerptShowsMatch(s: Source, text: string, read: Reader, query: string)
    requires |query| <= MAX_QUERY && read(s.id) == Some(text) && OutcomeOf(s, read, query).Hit? && OutcomeOf(s, read, query).m.inText
    ensures var m := OutcomeOf(s, read, query).m;
            exists at: nat :: OccursAt(m.excerpt, query, at) && OccursAt(text, query, m.offset + at)
  {
    FirstFromIs(text, query, 0);
    var at := IndexOf(text, query).value;
    var m := OutcomeOf(s, read, query).m;
    assert IndexOf(text, query).Some? && OutcomeOf(s, read, query) == Hit(MatchAt(s, text, at, true));
    hide OutcomeOf, FirstFrom, Newlines, OccursAt;
    assert at + |query| <= |text| by { OccursFits(text, query, at); }
    ShownInSlice(text, query, at, m.offset, Least(|text|, m.offset + 320));
    assert OccursAt(m.excerpt, query, at - m.offset) && OccursAt(text, query, m.offset + (at - m.offset));
  }

  lemma OccursFits(text: string, query: string, at: nat)
    requires OccursAt(text, query, at)
    ensures at + |query| <= |text|
  {
  }

  // ---------------------------------------------------------------- reading pages

  datatype TextPage = TextPage(text: string, next: Option<nat>)

  /** Where a page starts and ends; None is a refused request. */
  function Span(text: string, offset: nat, limit: nat, line: Option<int>): Option<(nat, nat)> {
    match line
    case None =>
      var end := Least(|text|, offset + Least(limit, MAX_READ_CHARS));
      Some((Least(offset, end), end))
    case Some(n) =>
      if n < 1 || offset != 0 || limit > MAX_READ_LINES then None
      else
        var start := SkipLines(text, 0, n - 1);
        Some((start, Least(SkipLines(text, start, limit), start + MAX_READ_CHARS)))
  }

  /** Skipping further lines, as the loops do: stopping at the end of the text changes nothing. */
  lemma {:induction false} SkipMore(text: string, k: nat, lines: nat)
    requires k <= |text|
    ensures SkipLines(text, k, lines + 1) == if SkipLines(text, k, lines) == |text| then |text| else NextLine(text, SkipLines(text, k, lines))
    decreases lines
  {
    if lines > 0 && k < |text| {
      SkipMore(text, NextLine(text, k), lines - 1);
    }
  }

  lemma {:induction false} SkipGrows(text: string, k: nat, a: nat, b: nat)
    requires k <= |text| && a <= b
    ensures SkipLines(text, k, a) <= SkipLines(text, k, b)
    ensures SkipLines(text, k, a) == |text| ==> SkipLines(text, k, b) == |text|
    decreases b - a
  {
    if a < b {
      SkipGrows(text, k, a, b - 1);
      SkipMore(text, k, b - 1);
    }
  }

  /** Walk to the start of a line. */
  method SeekLine(text: string, line: nat) returns (start: nat)
    requires line >= 1
    ensures start == SkipLines(text, 0, line - 1)
  {
    start := 0;
    var current := 1;
    while current < line && start < |text|
      invariant 1 <= current <= line && start == SkipLines(text, 0, current - 1)
    {
      SkipMore(text, 0, current - 1);
      start := NextLine(text, start);
      current := current + 1;
    }
    SkipGrows(text, 0, current - 1, line - 1);
  }

  /** Walk over lines until the limit or the character bound. */
  method TakeLines(text: string, start: nat, limit: nat) returns (end: nat)
    requires start <= |text|
    ensures end == Least(SkipLines(text, start, limit), start + MAX_READ_CHARS)
  {
    end := start;
    var count := 0;
    while count < limit && end < |text| && end - start < MAX_READ_CHARS
      invariant count <= limit && end == SkipLines(text, start, count)
    {
      SkipMore(text, start, count);
      end := NextLine(text, end);
      count := count + 1;
    }
    SkipGrows(text, start, count, limit);
    end := Least(end, start + MAX_READ_CHARS);
  }

  method EvidencePage(text: string, offset: nat, limit: nat, line: Option<int>) returns (r: Option<TextPage>)
    ensures match Span(text, offset, limit, line)
            case None => r.None?
            case Some((start, end)) => start <= end <= |text| && r == Some(TextPage(text[start..end], if end < |text| then Some(end) else None))
  {
    var start, end;
    if line.Some? {
      if line.value < 1 || offset != 0 || limit > MAX_READ_LINES { return None; }
      start := SeekLine(text, line.value);
      end := TakeLines(text, start, limit);
    } else {
      end := Least(|text|, offset + Least(limit, MAX_READ_CHARS));
      start := Least(offset, end);
    }
    r := Some(TextPage(text[start..end], if end < |text| then Some(end) else None));
  }

  /** The texts of pages read one after the other, each from the last one's next offset. */
  function ReadOn(text: string, offset: nat, limit: nat): string
    requires offset <= |text| && limit > 0
    decreases |text| - offset
  {
    var end := Span(text, offset, limit, None).value.1;
    text[offset..end] + if end < |text| then ReadOn(text, end, limit) else ""
  }

  /** Reading on from any place gives the rest of the text, page limits notwithstanding. */
  lemma {:induction false} ReadOnIsRest(text: string, offset: nat, limit: nat)
    requires offset <= |text| && limit > 0
    ensures ReadOn(text, offset, limit) == text[offset..]
    decreases |text| - offset
  {
    var end := Span(text, offset, limit, None).value.1;
    if end < |text| {
      ReadOnIsRest(text, end, limit);
      assert text[offset..] == text[offset..end] + text[end..];
    } else {
      assert text[offset..end] + "" == text[offset..];
    }
  }

  /** A line read, finished by character pages, gives the text from that line on; it never holds
      more than its bounds, and it ends at a line's end unless the character bound cut it. */
  lemma LineReadContinues(text: string, limit: nat, n: nat, chars: nat)
    requires 1 <= n && limit <= MAX_READ_LINES && chars > 0
    ensures var start := SkipLines(text, 0, n - 1);
            var end := Span(text, 0, limit, Some(n)).value.1;
            && start <= end <= |text| && end - start <= MAX_READ_CHARS
            && text[start..end] + ReadOn(text, end, chars) == text[start..]
            && (end < start + MAX_READ_CHARS ==> end == SkipLines(text, start, limit))
  {
    var start := SkipLines(text, 0, n - 1);
    var end := Span(text, 0, limit, Some(n)).value.1;
    ReadOnIsRest(text, end, chars);
    assert text[start..] == text[start..end] + text[end..];
  }
}
