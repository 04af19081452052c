/** Form-feed separated pages (app/adapters/extract.py) and line numbers of matches
    (app/services/entity_extract.py). */
module TextPages {
  import opened Wrappers
  import opened Lists
  import opened PdfText
  import opened Normalization

  const FORM_FEED := '\U{0C}'
  const MAX_TEXT_PAGES := 4096
  const MAX_TEXT_CHARS := 1048576

  // ---- segments --------------------------------------------------------------------

  function Segments(text: string): seq<string> {
    Split(text, FORM_FEED)
  }

  predicate Blank(part: string) {
    forall i :: 0 <= i < |part| ==> IsSpace(part[i])
  }

  /** The pages of segments: the blank ones are left out but counted. */
  function PagesOf(segments: seq<string>, sheet: SheetNumber): seq<Page> {
    if segments == [] then []
    else
      var n := |segments|;
      var part := segments[n - 1];
      PagesOf(segments[..n - 1], sheet)
      + if Blank(part) then [] else [Page(if sheet(part).Some? then sheet(part).value else n, part)]
  }

  function FirstSegments(text: string): seq<string> {
    var all := Segments(text);
    if |all| > MAX_TEXT_PAGES then all[..MAX_TEXT_PAGES] else all
  }

  /** Beyond the character limit nothing is returned; beyond the page limit the rest of
      the text is dropped without notice. */
  function TextPages(text: string, sheet: SheetNumber): seq<Page> {
    var parts := FirstSegments(text);
    if TotalLength(parts) > MAX_TEXT_CHARS then [] else PagesOf(parts, sheet)
  }

  // ---- the reading loop ------------------------------------------------------------

  /** `str.find` of a form feed from a position on. */
  method Find(text: string, start: nat) returns (r: Option<nat>)
    requires start <= |text|
    ensures match r
            case Some(at) => start <= at < |text| && text[at] == FORM_FEED && FORM_FEED !in text[start..at]
            case None => FORM_FEED !in text[start..]
  {
    for i := start to |text|
      invariant FORM_FEED !in text[start..i]
    {
      if text[i] == FORM_FEED {
        return Some(i);
      }
    }
    assert text[start..|text|] == text[start..];
    return None;
  }

  /** A cut: segments done, and the text still to be read, unless all is read. */
  ghost predicate Cut(text: string, done: seq<string>, start: nat, finished: bool) {
    && start <= |text|
    && Segments(text) == done + if finished then [] else Segments(text[start..])
  }

  lemma NextSegment(text: string, done: seq<string>, start: nat, at: Option<nat>)
    requires Cut(text, done, start, false)
    requires match at
             case Some(i) => start <= i < |text| && text[i] == FORM_FEED && FORM_FEED !in text[start..i]
             case None => FORM_FEED !in text[start..]
    ensures match at
            case Some(i) => Cut(text, done + [text[start..i]], i + 1, false)
            case None => Cut(text, done + [text[start..]], |text|, true)
  {
    match at
    case Some(i) =>
      assert text[start..] == text[start..i] + [FORM_FEED] + text[i + 1..];
      SplitFirst(text[start..i], FORM_FEED, text[i + 1..]);
      assert done + ([text[start..i]] + Segments(text[i + 1..])) == (done + [text[start..i]]) + Segments(text[i + 1..]);
    case None =>
      SplitFirst(text[start..], FORM_FEED, "");
  }

  lemma {:induction false} LengthGrows(parts: seq<string>, n: nat)
    requires n <= |parts|
    ensures TotalLength(parts[..n]) <= TotalLength(parts)
  {
    if n == |parts| {
      assert parts[..n] == parts;
    } else {
      assert parts[..|parts| - 1][..n] == parts[..n];
      LengthGrows(parts[..|parts| - 1], n);
    }
  }

  /** An empty last segment changes nothing. */
  lemma EmptyEnd(done: seq<string>, sheet: SheetNumber)
    ensures PagesOf(done + [""], sheet) == PagesOf(done, sheet) && TotalLength(done + [""]) == TotalLength(done)
  {
    assert (done + [""])[..|done|] == done;
  }

  lemma OneMorePart(done: seq<string>, part: string, sheet: SheetNumber)
    ensures TotalLength(done + [part]) == TotalLength(done) + |part|
    ensures PagesOf(done + [part], sheet)
         == PagesOf(done, sheet) + if Blank(part) then []
             else [Page(if sheet(part).Some? then sheet(part).value else |done| + 1, part)]
  {
    assert (done + [part])[..|done|] == done;
  }

  /** The loop may stop early only where nothing is left. */
  lemma Stopped(text: string, done: seq<string>, start: nat, finished: bool, sheet: SheetNumber)
    requires Cut(text, done, start, finished) && 0 < |done| <= MAX_TEXT_PAGES
    requires start == |text| || |done| == MAX_TEXT_PAGES
    ensures PagesOf(FirstSegments(text), sheet) == PagesOf(done, sheet)
    ensures TotalLength(FirstSegments(text)) == TotalLength(done)
  {
    if finished {
      assert FirstSegments(text) == done;
    } else if |done| == MAX_TEXT_PAGES {
      assert FirstSegments(text) == done;
    } else {
      assert text[start..] == "";
      assert FirstSegments(text) == done + [""];
      EmptyEnd(done, sheet);
    }
  }

  lemma PartOfFirst(text: string, done: seq<string>, start: nat, finished: bool)
    requires Cut(text, done, start, finished) && |done| <= MAX_TEXT_PAGES
    ensures TotalLength(done) <= TotalLength(FirstSegments(text))
  {
    assert FirstSegments(text)[..|done|] == done;
    LengthGrows(FirstSegments(text), |done|);
  }

  /** The reading loop after some segments. */
  ghost predicate Progress(text: string, sheet: SheetNumber, done: seq<string>, start: nat, finished: bool,
      chars: nat, numbered: seq<Page>)
  {
    && Cut(text, done, start, finished) && |done| <= MAX_TEXT_PAGES
    && chars == TotalLength(done) <= MAX_TEXT_CHARS && numbered == PagesOf(done, sheet)
  }

  lemma Begin(text: string, sheet: SheetNumber)
    ensures Progress(text, sheet, [], 0, false, 0, [])
  {
    assert text[0..] == text && [] + Segments(text) == Segments(text);
  }

  lemma Advance(text: string, sheet: SheetNumber, done: seq<string>, start: nat, chars: nat, numbered: seq<Page>,
                part: string, next: nat, finished: bool)
    requires Progress(text, sheet, done, start, false, chars, numbered) && |done| < MAX_TEXT_PAGES
    requires Cut(text, done + [part], next, finished)
    ensures chars + |part| > MAX_TEXT_CHARS ==> TextPages(text, sheet) == []
    ensures chars + |part| <= MAX_TEXT_CHARS ==>
              Progress(text, sheet, done + [part], next, finished, chars + |part|,
                       numbered + if Blank(part) then []
                           else [Page(if sheet(part).Some? then sheet(part).value else |done| + 1, part)])
  {
    OneMorePart(done, part, sheet);
    PartOfFirst(text, done + [part], next, finished);
  }

  lemma Finish(text: string, sheet: SheetNumber, done: seq<string>, start: nat, finished: bool, chars: nat,
      numbered: seq<Page>)
    requires Progress(text, sheet, done, start, finished, chars, numbered) && done != []
    requires start == |text| || |done| == MAX_TEXT_PAGES
    ensures TextPages(text, sheet) == numbered
  {
    Stopped(text, done, start, finished, sheet);
  }

  /** `extract_text_pages`, from the decoded text on. */
  method ExtractTextPages(text: string, sheet: SheetNumber) returns (numbered: seq<Page>)
    ensures numbered == TextPages(text, sheet)
  {
    numbered := [];
    var start: nat, charCount: nat := 0, 0;
    ghost var done: seq<string>, finished := [], false;
    Begin(text, sheet);
    for index := 1 to MAX_TEXT_PAGES + 1
      invariant |done| == index - 1 && !finished
      invariant Progress(text, sheet, done, start, finished, charCount, numbered)
    {
      var separator := Find(text, start);
      NextSegment(text, done, start, separator);
      var part, next;
      if separator.None? {
        part, next := text[start..], |text|;
      } else {
        part, next := text[start..separator.value], separator.value + 1;
      }
      Advance(text, sheet, done, start, charCount, numbered, part, next, separator.None?);
      done, finished, start := done + [part], separator.None?, next;
      charCount := charCount + |part|;
      if charCount > MAX_TEXT_CHARS {
        return [];
      }
      if !Blank(part) {
        numbered := numbered + [Page(if sheet(part).Some? then sheet(part).value else index, part)];
      }
      if start == |text| {
        Finish(text, sheet, done, start, finished, charCount, numbered);
        return;
      }
    }
    Finish(text, sheet, done, start, finished, charCount, numbered);
  }

  // ---- line numbers ------------------------------------------------------------------

  function NewlinesBefore(text: string, index: nat): nat
    requires index <= |text|
  {
    if index == 0 then 0 else NewlinesBefore(text, index - 1) + if text[index - 1] == '\n' then 1 else 0
  }

  /** The positions of the newlines, in order. */
  ghost predicate AreNewlines(offsets: seq<nat>, text: string) {
    && (forall k :: 0 <= k < |offsets| ==> offsets[k] < |text| && text[offsets[k]] == '\n')
    && (forall k, l :: 0 <= k < l < |offsets| ==> offsets[k] < offsets[l])
    && (forall i :: 0 <= i < |text| && text[i] == '\n' ==> i in offsets)
  }

  /** `_newline_offsets`. */
  method NewlineOffsets(text: string) returns (offsets: seq<nat>)
    ensures AreNewlines(offsets, text)
  {
    offsets := [];
    for i := 0 to |text|
      invariant forall k :: 0 <= k < |offsets| ==> offsets[k] < i && text[offsets[k]] == '\n'
      invariant forall k, l :: 0 <= k < l < |offsets| ==> offsets[k] < offsets[l]
      invariant forall j :: 0 <= j < i && text[j] == '\n' ==> j in offsets
    {
      if text[i] == '\n' {
        offsets := offsets + [i];
      }
    }
  }

  lemma {:induction false} RankIsCount(offsets: seq<nat>, text: string, index: nat, rank: nat)
    requires AreNewlines(offsets, text) && index <= |text| && rank <= |offsets|
    requires forall k :: 0 <= k < rank ==> offsets[k] < index
    requires forall k :: rank <= k < |offsets| ==> offsets[k] >= index
    ensures rank == NewlinesBefore(text, index)
    decreases index
  {
    if index > 0 {
      if text[index - 1] == '\n' {
        var k :| 0 <= k < |offsets| && offsets[k] == index - 1;
        assert k < rank && offsets[k] <= offsets[rank - 1];
        RankIsCount(offsets, text, index - 1, rank - 1);
      } else {
        assert forall k :: 0 <= k < |offsets| ==> offsets[k] != index - 1;
        RankIsCount(offsets, text, index - 1, rank);
      }
    }
  }

  /** `_line_of`: binary search among the newline positions. */
  method LineOf(offsets: seq<nat>, text: string, index: nat) returns (line: nat)
    requires AreNewlines(offsets, text) && index <= |text|
    ensures line == 1 + NewlinesBefore(text, index)
  {
    var lo, hi := 0, |offsets|;
    while lo < hi
      invariant 0 <= lo <= hi <= |offsets|
      invariant forall k :: 0 <= k < lo ==> offsets[k] < index
      invariant forall k :: hi <= k < |offsets| ==> offsets[k] >= index
    {
      var mid := (lo + hi) / 2;
      if offsets[mid] < index {
        lo := mid + 1;
      } else {
        hi := mid;
      }
    }
    RankIsCount(offsets, text, index, lo);
    line := lo + 1;
  }

  // ---- pages, told out -----------------------------------------------------------------

  /** The pages are the segments at these places, in order: those that are not blank. A page
      has the number that its text gives, or else its place. */
  ghost predicate PagesAt(segments: seq<string>, pages: seq<Page>, places: seq<nat>, sheet: SheetNumber) {
    && |places| == |pages|
    && (forall k :: 0 <= k < |pages| ==>
          && places[k] < |segments| && pages[k].blob == segments[places[k]]
          && pages[k].number == if sheet(pages[k].blob).Some? then sheet(pages[k].blob).value else places[k] + 1)
    && (forall k, l :: 0 <= k < l < |pages| ==> places[k] < places[l])
    && (forall i: nat :: i < |segments| ==> (i in places
         <==> exists j :: 0 <= j < |segments[i]| && !IsSpace(segments[i][j])))
  }

  lemma {:induction false} PagesOutcome(segments: seq<string>, sheet: SheetNumber) returns (places: seq<nat>)
    ensures PagesAt(segments, PagesOf(segments, sheet), places, sheet)
  {
    places := [];
    if segments != [] {
      var n := |segments| - 1;
      var before := PagesOutcome(segments[..n], sheet);
      places := before + if Blank(segments[n]) then [] else [n];
      forall i: nat | i < |segments|
        ensures i in places <==> exists j :: 0 <= j < |segments[i]| && !IsSpace(segments[i][j])
      {
        if i < n {
          assert segments[..n][i] == segments[i];
        } else {
          assert forall k :: 0 <= k < |before| ==> before[k] < n;
        }
      }
    }
  }

  /** The text is cut at its form feeds; of the first 4096 pieces the ones that are not blank
      are pages, unless these pieces have more than 1048576 characters. */
  lemma TextPagesOutcome(text: string, parts: seq<string>, sheet: SheetNumber)
    requires parts != [] && Join(parts, '\U{0C}') == text && forall p :: p in parts ==> '\U{0C}' !in p
    ensures var first := if |parts| > 4096 then parts[..4096] else parts;
            if TotalLength(first) > 1048576 then TextPages(text, sheet) == []
            else exists places :: PagesAt(first, TextPages(text, sheet), places, sheet)
  {
    SplitCutsTheText(text, FORM_FEED, parts);
    var first := if |parts| > 4096 then parts[..4096] else parts;
    assert FirstSegments(text) == first;
    var places := PagesOutcome(first, sheet);
  }
}
