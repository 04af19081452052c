/** Text of fixture-style PDF files: the linear scanner, the page reader
    (app/adapters/extract.py) and the escaping of the printers
    (app/evaluation/formats.py). Bytes are characters below 256; a string operand is a
    literal string of ISO 32000-1, section 7.3.4.2, with the three escapes used here. */
module PdfText {
  import opened Wrappers
  import opened Lists

  const MAX_PDF_STRINGS := 65536
  const MAX_PDF_PAGES := 4096
  const MAX_PDF_CHARS := 1048576
  const LINE_WIDTH := 110

  // ---- escaping ------------------------------------------------------------------

  /** `bytes.replace` of one character by two. */
  function ReplaceOne(s: string, c: char, by2: string): string {
    if s == "" then "" else (if s[0] == c then by2 else [s[0]]) + ReplaceOne(s[1..], c, by2)
  }

  /** `bytes.replace` of a pair by one character: leftmost first, without overlap. */
  function ReplacePair(s: string, a: char, b: char, c: char): string {
    if |s| < 2 then s
    else if s[0] == a && s[1] == b then [c] + ReplacePair(s[2..], a, b, c)
    else [s[0]] + ReplacePair(s[1..], a, b, c)
  }

  function Latin(s: string): string {
    if s == "" then "" else [if s[0] as int < 256 then s[0] else '?'] + Latin(s[1..])
  }

  /** `_pdf_escape`. */
  function PdfEscape(line: string): string {
    ReplaceOne(ReplaceOne(ReplaceOne(Latin(line), '\\', "\\\\"), '(', "\\("), ')', "\\)")
  }

  /** The three replacements of the reader. */
  function PdfUnescape(raw: string): string {
    ReplacePair(ReplacePair(ReplacePair(raw, '\\', '(', '('), '\\', ')', ')'), '\\', '\\', '\\')
  }

  /** Escaping character by character; `opens` and `closes` tell which parentheses. */
  function Escaped(s: string, opens: bool, closes: bool): string {
    if s == "" then ""
    else EscapedChar(s[0], opens, closes) + Escaped(s[1..], opens, closes)
  }

  function EscapedChar(c: char, opens: bool, closes: bool): string {
    if c == '\\' || (c == '(' && opens) || (c == ')' && closes) then ['\\', c] else [c]
  }

  lemma {:induction false} ReplaceOneConcat(s: string, t: string, c: char, by2: string)
    ensures ReplaceOne(s + t, c, by2) == ReplaceOne(s, c, by2) + ReplaceOne(t, c, by2)
  {
    if s == "" {
      assert s + t == t;
    } else {
      assert (s + t)[1..] == s[1..] + t;
      ReplaceOneConcat(s[1..], t, c, by2);
    }
  }

  lemma {:induction false} EscapeByCharacter(s: string)
    ensures ReplaceOne(ReplaceOne(ReplaceOne(s, '\\', "\\\\"), '(', "\\("), ')', "\\)") == Escaped(s, true, true)
  {
    if s != "" {
      var c, rest := s[0], s[1..];
      var first := if c == '\\' then "\\\\" else [c];
      ReplaceOneConcat(first, ReplaceOne(rest, '\\', "\\\\"), '(', "\\(");
      var second := ReplaceOne(first, '(', "\\(");
      ReplaceOneConcat(second, ReplaceOne(ReplaceOne(rest, '\\', "\\\\"), '(', "\\("), ')', "\\)");
      EscapeByCharacter(rest);
      ReplaceOfChar(c);
    }
  }

  lemma ReplaceOfChar(c: char)
    ensures ReplaceOne(ReplaceOne(if c == '\\' then "\\\\" else [c], '(', "\\("), ')', "\\)")
            == EscapedChar(c, true, true)
  {
    assert "\\\\"[1..] == ['\\'] && "\\("[1..] == ['('] && [c][1..] == "" && ['\\'][1..] == "" && ['('][1..] == "";
    assert ReplaceOne(['\\'], '(', "\\(") == ['\\'] && ReplaceOne(['\\'], ')', "\\)") == ['\\'];
    assert ReplaceOne(['('], ')', "\\)") == ['('];
    assert ['\\'] + ['\\'] == "\\\\";
  }

  /** The first of the reader's replacements frees the opening parentheses, ... */
  lemma {:induction false} FreeOpening(s: string)
    ensures ReplacePair(Escaped(s, true, true), '\\', '(', '(') == Escaped(s, false, true)
  {
    if s != "" {
      var rest := Escaped(s[1..], true, true);
      FreeOpening(s[1..]);
      assert rest != "" ==> rest[0] == EscapedChar(s[1], true, true)[0] && rest[0] != '(';
      PairOfChar(EscapedChar(s[0], true, true), rest, '(');
    }
  }

  /** ... the second the closing ones, ... */
  lemma {:induction false} FreeClosing(s: string)
    ensures ReplacePair(Escaped(s, false, true), '\\', ')', ')') == Escaped(s, false, false)
  {
    if s != "" {
      var rest := Escaped(s[1..], false, true);
      FreeClosing(s[1..]);
      assert rest != "" ==> rest[0] == EscapedChar(s[1], false, true)[0] && rest[0] != ')';
      PairOfChar(EscapedChar(s[0], false, true), rest, ')');
    }
  }

  /** ... and the last the backslashes. */
  lemma {:induction false} FreeBackslashes(s: string)
    ensures ReplacePair(Escaped(s, false, false), '\\', '\\', '\\') == s
  {
    if s != "" {
      var rest := Escaped(s[1..], false, false);
      FreeBackslashes(s[1..]);
      var all := EscapedChar(s[0], false, false) + rest;
      if s[0] == '\\' {
        assert all[2..] == rest;
      } else {
        assert all[1..] == rest;
        if |all| < 2 { assert rest == ""; }
      }
    }
  }

  /** One escaped character before text that does not begin with that parenthesis. */
  lemma PairOfChar(e: string, rest: string, p: char)
    requires p == '(' || p == ')'
    requires |e| == 1 || (|e| == 2 && e[0] == '\\')
    requires |e| == 1 ==> e[0] != '\\'
    requires rest != "" ==> rest[0] != p
    ensures ReplacePair(e + rest, '\\', p, p)
         == (if |e| == 2 && e[1] == p then [p] else e) + ReplacePair(rest, '\\', p, p)
  {
    var all := e + rest;
    if |e| == 1 {
      assert all[1..] == rest;
      if |all| < 2 { assert rest == ""; }
    } else if e[1] == p {
      assert all[2..] == rest;
    } else {
      assert all[1..] == [e[1]] + rest && ([e[1]] + rest)[1..] == rest;
      if rest == "" { assert all[1..] == [e[1]]; }
    }
  }

  /** What the reader does to a printed string gives the Latin-1 line back. */
  lemma UnescapeUndoesEscape(line: string)
    ensures PdfUnescape(PdfEscape(line)) == Latin(line)
  {
    EscapeByCharacter(Latin(line));
    FreeOpening(Latin(line));
    FreeClosing(Latin(line));
    FreeBackslashes(Latin(line));
  }

  lemma {:induction false} LatinKeepsLatin(s: string)
    ensures |Latin(s)| == |s|
    ensures (forall c :: c in s ==> c as int < 256) ==> Latin(s) == s
  {
    if s != "" {
      assert s == [s[0]] + s[1..];
      assert s[0] in s && forall c :: c in s[1..] ==> c in s;
      LatinKeepsLatin(s[1..]);
    }
  }

  // ---- the scanner -----------------------------------------------------------------

  predicate ShowsHere(content: string, index: nat) {
    index + 4 <= |content| && content[index + 1..index + 4] == " Tj"
  }

  /** The strings found from `index` on, given where the current string starts, if one
      does, and the latest parenthesis opened in it. */
  function ScanFrom(content: string, index: nat, start: Option<nat>, latest: Option<nat>): seq<string>
    decreases |content| - index
  {
    if index >= |content| then []
    else if start.None? then
      if content[index] == '(' then ScanFrom(content, index + 1, Some(index), Some(index))
      else ScanFrom(content, index + 1, None, latest)
    else if content[index] == '\\' then ScanFrom(content, index + 2, start, latest)
    else if content[index] == '(' then ScanFrom(content, index + 1, start, Some(index))
    else if content[index] == ')' then
      if ShowsHere(content, index) && start.value < index then
        [content[start.value + 1..index]] + ScanFrom(content, index + 4, None, None)
      else
        var restart := if latest.Some? && latest.value > start.value then latest else None;
        ScanFrom(content, index + 1, restart, restart)
    else ScanFrom(content, index + 1, start, latest)
  }

  function Strings(content: string): seq<string> {
    ScanFrom(content, 0, None, None)
  }

  /** `_iter_pdf_strings`. */
  method IterPdfStrings(content: string) returns (found: seq<string>)
    ensures found == Strings(content)
  {
    found := [];
    var start: Option<nat>, latest: Option<nat> := None, None;
    var index := 0;
    while index < |content|
      invariant start.Some? ==> start.value < index
      invariant latest.Some? ==> latest.value < index
      invariant found + ScanFrom(content, index, start, latest) == Strings(content)
      decreases |content| - index
    {
      var value := content[index];
      if start.None? {
        if value == '(' {
          start, latest := Some(index), Some(index);
        }
        index := index + 1;
      } else if value == '\\' {
        index := index + 2;
      } else if value == ')' && ShowsHere(content, index) {
        found := found + [content[start.value + 1..index]];
        start, latest := None, None;
        index := index + 4;
      } else {
        if value == '(' {
          latest := Some(index);
        } else if value == ')' {
          start := if latest.Some? && latest.value > start.value then latest else None;
          latest := start;
        }
        index := index + 1;
      }
    }
  }

  /** A string operand of the content: what lies between a parenthesis and `) Tj`. */
  ghost predicate IsOperand(content: string, s: string) {
    exists i: nat, j: nat :: i < j && ShowsHere(content, j) && content[i] == '(' && content[j] == ')'
        && s == content[i + 1..j]
  }

  /** Whatever the input, the scanner yields operands only. */
  lemma {:induction false} OnlyOperands(content: string, index: nat, start: Option<nat>, latest: Option<nat>)
    requires start.Some? ==> start.value < index && start.value < |content| && content[start.value] == '('
    requires latest.Some? ==> latest.value < |content| && content[latest.value] == '(' && latest.value < index
    ensures forall s :: s in ScanFrom(content, index, start, latest) ==> IsOperand(content, s)
    decreases |content| - index
  {
    if index < |content| {
      if start.None? {
        if content[index] == '(' { OnlyOperands(content, index + 1, Some(index), Some(index)); }
        else { OnlyOperands(content, index + 1, None, latest); }
      } else if content[index] == '\\' {
        OnlyOperands(content, index + 2, start, latest);
      } else if content[index] == '(' {
        OnlyOperands(content, index + 1, start, Some(index));
      } else if content[index] == ')' && ShowsHere(content, index) {
        assert IsOperand(content, content[start.value + 1..index]);
        OnlyOperands(content, index + 4, None, None);
      } else if content[index] == ')' {
        var restart := if latest.Some? && latest.value > start.value then latest else None;
        OnlyOperands(content, index + 1, restart, restart);
      } else {
        OnlyOperands(content, index + 1, start, latest);
      }
    }
  }

  // ---- scanning what was printed -----------------------------------------------------

  /** A piece of a printed file: operators and structure, or a shown line. */
  datatype Piece = Plain(text: string) | Show(line: string)

  function Clip(line: string): string {
    if |line| > LINE_WIDTH then line[..LINE_WIDTH] else line
  }

  function PieceText(p: Piece): string {
    match p
    case Plain(text) => text
    case Show(line) => Operand(PdfEscape(Clip(line)))
  }

  function Text(pieces: seq<Piece>): string {
    if pieces == [] then "" else PieceText(pieces[0]) + Text(pieces[1..])
  }

  function Shown(pieces: seq<Piece>): seq<string> {
    if pieces == [] then []
    else (if pieces[0].Show? then [pieces[0].line] else []) + Shown(pieces[1..])
  }

  function Printed(lines: seq<string>): seq<string> {
    if lines == [] then [] else [PdfEscape(Clip(lines[0]))] + Printed(lines[1..])
  }

  /** Structure never opens a string. */
  predicate Unopened(pieces: seq<Piece>) {
    forall p :: p in pieces && p.Plain? ==> '(' !in p.text
  }

  lemma {:induction false} SkipPlain(content: string, i: nat, j: nat)
    requires i <= j <= |content| && '(' !in content[i..j]
    ensures ScanFrom(content, i, None, None) == ScanFrom(content, j, None, None)
    decreases j - i
  {
    if i < j {
      assert content[i] == content[i..j][0] && content[i] in content[i..j];
      assert content[i + 1..j] == content[i..j][1..];
      SkipPlain(content, i + 1, j);
    }
  }

  lemma {:induction false} SkipEscaped(content: string, start: nat, i: nat, s: string)
    requires start < i && i + |Escaped(s, true, true)| <= |content|
    requires content[i..i + |Escaped(s, true, true)|] == Escaped(s, true, true)
    ensures ScanFrom(content, i, Some(start), Some(start))
            == ScanFrom(content, i + |Escaped(s, true, true)|, Some(start), Some(start))
    decreases |s|
  {
    if s != "" {
      var e, rest := EscapedChar(s[0], true, true), Escaped(s[1..], true, true);
      var all := content[i..i + |Escaped(s, true, true)|];
      assert all == e + rest && all[0] == content[i];
      assert content[i + |e|..i + |e| + |rest|] == all[|e|..];
      SkipEscaped(content, start, i + |e|, s[1..]);
    }
  }

  lemma {:induction false} ScanPrinted(before: string, pieces: seq<Piece>)
    requires Unopened(pieces)
    ensures ScanFrom(before + Text(pieces), |before|, None, None) == Printed(Shown(pieces))
    decreases |pieces|
  {
    if pieces != [] {
      var p, rest := pieces[0], pieces[1..];
      var content, next := before + Text(pieces), before + PieceText(p);
      assert content == next + Text(rest);
      ScanPrinted(next, rest);
      match p
      case Plain(text) =>
        assert content[|before|..|next|] == text;
        assert Shown(pieces) == Shown(rest);
        SkipPlain(content, |before|, |next|);
      case Show(line) =>
        ScanShown(content, before, line, Text(rest));
        assert Shown(pieces)[1..] == Shown(rest);
    }
  }

  /** An escaped string between its parenthesis and `) Tj`. */
  lemma ScanOperand(content: string, start: nat, s: string)
    requires var e := Escaped(s, true, true);
             && start + |e| + 5 <= |content| && content[start..start + 1] == "("
             && content[start + 1..start + 1 + |e|] == e && content[start + 1 + |e|..start + 5 + |e|] == ") Tj"
    ensures var e := Escaped(s, true, true);
            ScanFrom(content, start, None, None) == [e] + ScanFrom(content, start + |e| + 5, None, None)
  {
    var close := start + 1 + |Escaped(s, true, true)|;
    Operators(content, start, close);
    SkipEscaped(content, start, start + 1, s);
  }

  lemma Operators(content: string, start: nat, close: nat)
    requires start < close && close + 4 <= |content| && content[start..start + 1] == "("
             && content[close..close + 4] == ") Tj"
    ensures content[start] == '(' && content[close] == ')' && ShowsHere(content, close)
  {
    assert content[start..start + 1][0] == content[start];
    assert content[close..close + 4][0] == content[close];
    assert content[close..close + 4][1..] == content[close + 1..close + 4];
  }

  lemma FiveParts(content: string, before: string, head: string, inner: string, foot: string, after: string)
    requires content == before + (head + inner + foot) + after
    ensures var i := |before|; var j := i + |head|; var k := j + |inner|; var l := k + |foot|;
            l <= |content| && content[i..j] == head && content[j..k] == inner && content[k..l] == foot
  {
  }

  function Operand(escaped: string): string { "(" + escaped + ") Tj" }

  lemma ScanBetween(content: string, before: string, s: string, after: string)
    requires content == before + Operand(Escaped(s, true, true)) + after
    ensures var e := Escaped(s, true, true);
            ScanFrom(content, |before|, None, None) == [e] + ScanFrom(content, |before| + |Operand(e)|, None, None)
  {
    FiveParts(content, before, "(", Escaped(s, true, true), ") Tj", after);
    ScanOperand(content, |before|, s);
  }

  lemma ScanShown(content: string, before: string, line: string, after: string)
    requires content == before + PieceText(Show(line)) + after
    ensures ScanFrom(content, |before|, None, None)
         == [PdfEscape(Clip(line))] + ScanFrom(content, |before| + |PieceText(Show(line))|, None, None)
  {
    EscapeByCharacter(Latin(Clip(line)));
    assert PdfEscape(Clip(line)) == Escaped(Latin(Clip(line)), true, true);
    ScanBetween(content, before, Latin(Clip(line)), after);
  }

  // ---- pages ---------------------------------------------------------------------------

  predicate OpensPage(text: string) {
    "TITLE BLOCK" <= text
  }

  /** A title block opens a page unless nothing came before it. */
  function GroupPages(texts: seq<string>): seq<seq<string>> {
    if texts == [] then []
    else
      var before, text := GroupPages(texts[..|texts| - 1]), texts[|texts| - 1];
      if before == [] || OpensPage(text) then before + [[text]]
      else before[..|before| - 1] + [before[|before| - 1] + [text]]
  }

  function Unescaped(raw: seq<string>): seq<string> {
    if raw == [] then [] else Unescaped(raw[..|raw| - 1]) + [PdfUnescape(raw[|raw| - 1])]
  }

  function TotalLength(texts: seq<string>): nat {
    if texts == [] then 0 else TotalLength(texts[..|texts| - 1]) + |texts[|texts| - 1]|
  }

  predicate WithinLimits(texts: seq<string>) {
    |texts| <= MAX_PDF_STRINGS && TotalLength(texts) <= MAX_PDF_CHARS && |GroupPages(texts)| <= MAX_PDF_PAGES
  }

  function JoinLines(lines: seq<string>): string {
    if lines == [] then ""
    else if |lines| == 1 then lines[0]
    else JoinLines(lines[..|lines| - 1]) + "\n" + lines[|lines| - 1]
  }

  /** The number after `sheet=` in a page, if the pattern occurs. */
  type SheetNumber = string -> Option<nat>

  datatype Page = Page(number: nat, blob: string)

  function NumberedPage(lines: seq<string>, index: nat, sheet: SheetNumber): Page {
    var blob := JoinLines(lines);
    Page(if sheet(blob).Some? then sheet(blob).value else index, blob)
  }

  function NumberedPages(pages: seq<seq<string>>, sheet: SheetNumber): seq<Page> {
    seq(|pages|, i requires 0 <= i < |pages| => NumberedPage(pages[i], i + 1, sheet))
  }

  lemma {:induction false} PagesGrow(texts: seq<string>, n: nat)
    requires n <= |texts|
    ensures |GroupPages(texts[..n])| <= |GroupPages(texts)| && TotalLength(texts[..n]) <= TotalLength(texts)
    ensures GroupPages(texts[..n]) == [] ==> n == 0
  {
    if n == |texts| {
      assert texts[..n] == texts;
    } else {
      assert texts[..|texts| - 1][..n] == texts[..n];
      PagesGrow(texts[..|texts| - 1], n);
    }
    if n > 0 { assert GroupPages(texts[..n]) != []; }
  }

  /** The pages closed so far and the one being read. */
  function Collected(pages: seq<seq<string>>, current: seq<string>): seq<seq<string>> {
    if current == [] then pages else pages + [current]
  }

  /** The reading loop after `i` texts. */
  ghost predicate Reading(texts: seq<string>, i: nat, pages: seq<seq<string>>, current: seq<string>, chars: nat) {
    && i <= |texts| && i <= MAX_PDF_STRINGS && chars == TotalLength(texts[..i]) <= MAX_PDF_CHARS
    && (current == [] ==> pages == [])
    && GroupPages(texts[..i]) == Collected(pages, current) && |Collected(pages, current)| <= MAX_PDF_PAGES
  }

  lemma OneMoreText(texts: seq<string>, i: nat, pages: seq<seq<string>>, current: seq<string>, chars: nat)
    requires i < |texts| && Reading(texts, i, pages, current, chars)
    ensures i + 1 > MAX_PDF_STRINGS || chars + |texts[i]| > MAX_PDF_CHARS ==> !WithinLimits(texts)
    ensures var turn := OpensPage(texts[i]) && current != [];
            var pages', current' :=
              if turn then pages + [current] else pages, if turn then [texts[i]] else current + [texts[i]];
            && (|pages'| + 1 > MAX_PDF_PAGES ==> !WithinLimits(texts))
            && (i + 1 <= MAX_PDF_STRINGS && chars + |texts[i]| <= MAX_PDF_CHARS && |pages'| + 1 <= MAX_PDF_PAGES ==>
                  Reading(texts, i + 1, pages', current', chars + |texts[i]|))
            && (!turn ==> |pages'| + 1 <= MAX_PDF_PAGES)
  {
    assert texts[..i + 1][..i] == texts[..i];
    PagesGrow(texts, i + 1);
    assert (pages + [current])[..|pages|] == pages;
    assert [] + [texts[i]] == [texts[i]];
  }

  /** The reading loop: the pages, or nothing once a limit is passed. */
  method CollectPages(texts: seq<string>) returns (r: Option<seq<seq<string>>>)
    ensures r == if WithinLimits(texts) then Some(GroupPages(texts)) else None
  {
    var pages: seq<seq<string>>, current: seq<string>, charCount: nat := [], [], 0;
    for i := 0 to |texts|
      invariant Reading(texts, i, pages, current, charCount)
    {
      OneMoreText(texts, i, pages, current, charCount);
      if i + 1 > MAX_PDF_STRINGS {
        return None;
      }
      var text := texts[i];
      charCount := charCount + |text|;
      if charCount > MAX_PDF_CHARS {
        return None;
      }
      if OpensPage(text) && current != [] {
        pages := pages + [current];
        current := [text];
        if |pages| + 1 > MAX_PDF_PAGES {
          return None;
        }
      } else {
        current := current + [text];
      }
    }
    assert texts[..|texts|] == texts;
    return Some(Collected(pages, current));
  }

  method UnescapeAll(raws: seq<string>) returns (texts: seq<string>)
    ensures texts == Unescaped(raws)
  {
    texts := [];
    for i := 0 to |raws|
      invariant texts == Unescaped(raws[..i])
    {
      assert raws[..i + 1][..i] == raws[..i];
      texts := texts + [PdfUnescape(raws[i])];
    }
    assert raws[..|raws|] == raws;
  }

  /** `extract_pdf_pages`: beyond any of the limits there are no pages at all. */
  method ExtractPdfPages(content: string, sheet: SheetNumber) returns (numbered: seq<Page>)
    ensures var texts := Unescaped(Strings(content));
            numbered == if WithinLimits(texts) then NumberedPages(GroupPages(texts), sheet) else []
  {
    var raws := IterPdfStrings(content);
    var texts := UnescapeAll(raws);
    var pages := CollectPages(texts);
    numbered := [];
    if pages.None? {
      return;
    }
    for i := 0 to |pages.value|
      invariant numbered == NumberedPages(pages.value, sheet)[..i]
    {
      var blob := JoinLines(pages.value[i]);
      numbered := numbered + [Page(if sheet(blob).Some? then sheet(blob).value else i + 1, blob)];
    }
  }

  // ---- details, told out -----------------------------------------------------------------

  /** Latin-1 by character: what does not fit becomes a question mark. */
  lemma {:induction false} LatinOutcome(s: string)
    ensures |Latin(s)| == |s|
    ensures forall i :: 0 <= i < |s| ==> Latin(s)[i] == if s[i] as int <= 255 then s[i] else '?'
  {
    if s != "" { LatinOutcome(s[1..]); }
  }

  /** A line is cut after 110 characters. */
  lemma ClipOutcome(line: string)
    ensures Clip(line) <= line && |Clip(line)| == if |line| > 110 then 110 else |line|
  {
  }

  lemma {:induction false} JoinLinesOutcome(lines: seq<string>)
    ensures JoinLines(lines) == Join(lines, '\n')
  {
    if |lines| > 1 {
      JoinLinesOutcome(lines[..|lines| - 1]);
      JoinSnoc(lines[..|lines| - 1], lines[|lines| - 1], '\n');
      assert lines == lines[..|lines| - 1] + [lines[|lines| - 1]];
    }
  }

  /** A page is its lines joined, with the number that its text gives or else its place; the
      limits are 65536 strings, 1048576 characters and 4096 pages. */
  lemma PagesOutcome(pages: seq<seq<string>>, texts: seq<string>, sheet: SheetNumber)
    ensures |NumberedPages(pages, sheet)| == |pages|
    ensures forall i :: 0 <= i < |pages| ==>
              var page := NumberedPages(pages, sheet)[i];
              && page.blob == Join(pages[i], '\n')
              && page.number == if sheet(page.blob).Some? then sheet(page.blob).value else i + 1
    ensures WithinLimits(texts) <==> |texts| <= 65536 && TotalLength(texts) <= 1048576 && |GroupPages(texts)| <= 4096
    ensures forall text :: OpensPage(text) <==> |text| >= 11 && text[..11] == "TITLE BLOCK"
  {
    forall i | 0 <= i < |pages| ensures NumberedPages(pages, sheet)[i].blob == Join(pages[i], '\n') {
      JoinLinesOutcome(pages[i]);
    }
    assert |"TITLE BLOCK"| == 11;
  }

  // ---- what the scanner does with parentheses it does not expect --------------------------

  predicate Bare(s: string) {
    forall c :: c in s ==> c != '(' && c != ')' && c != '\\'
  }

  /** Bare text changes nothing but the place. */
  lemma {:induction false} SkipBare(content: string, i: nat, j: nat, start: Option<nat>, latest: Option<nat>)
    requires i <= j <= |content| && Bare(content[i..j])
    ensures ScanFrom(content, i, start, latest) == ScanFrom(content, j, start, latest)
    decreases j - i
  {
    if i < j {
      assert content[i] == content[i..j][0] && content[i] in content[i..j];
      assert content[i + 1..j] == content[i..j][1..] && forall c :: c in content[i..j][1..] ==> c in content[i..j];
      SkipBare(content, i + 1, j, start, latest);
    }
  }

  /** Between these places there is no parenthesis and no backslash. */
  predicate BareBetween(content: string, i: nat, j: nat) {
    i <= j <= |content| && Bare(content[i..j])
  }

  /** A parenthesis opened inside a string that is then shown belongs to it. */
  lemma InnerOpening(content: string, start: nat, inner: nat, close: nat)
    requires start < inner < close < |content| && content[start] == '(' && content[inner] == '('
    requires BareBetween(content, start + 1, inner) && BareBetween(content, inner + 1, close)
    requires content[close] == ')' && ShowsHere(content, close)
    ensures ScanFrom(content, start, None, None)
         == [content[start + 1..close]] + ScanFrom(content, close + 4, None, None)
  {
    SkipBare(content, start + 1, inner, Some(start), Some(start));
    SkipBare(content, inner + 1, close, Some(start), Some(inner));
  }

  /** A string that is closed but not shown is given up ... */
  lemma UnshownString(content: string, start: nat, close: nat)
    requires start < close < |content| && content[start] == '(' && BareBetween(content, start + 1, close)
    requires content[close] == ')' && !ShowsHere(content, close)
    ensures ScanFrom(content, start, None, None) == ScanFrom(content, close + 1, None, None)
  {
    SkipBare(content, start + 1, close, Some(start), Some(start));
  }

  /** ... unless a later parenthesis was opened in it: then the string begins there. */
  lemma RestartsAtLatest(content: string, start: nat, latest: nat, close: nat, shown: nat)
    requires start < latest < close < shown < |content| && content[start] == '(' && content[latest] == '('
    requires BareBetween(content, start + 1, latest) && BareBetween(content, latest + 1, close)
    requires content[close] == ')' && !ShowsHere(content, close)
    requires BareBetween(content, close + 1, shown) && content[shown] == ')' && ShowsHere(content, shown)
    ensures ScanFrom(content, start, None, None)
         == [content[latest + 1..shown]] + ScanFrom(content, shown + 4, None, None)
  {
    SkipBare(content, start + 1, latest, Some(start), Some(start));
    SkipBare(content, latest + 1, close, Some(start), Some(latest));
    SkipBare(content, close + 1, shown, Some(latest), Some(latest));
  }

  /** An escaped character never opens or closes anything. */
  lemma EscapedCharacter(content: string, start: nat, escape: nat, close: nat)
    requires start < escape && escape + 2 <= close < |content| && content[start] == '(' && content[escape] == '\\'
    requires BareBetween(content, start + 1, escape) && BareBetween(content, escape + 2, close)
    requires content[close] == ')' && ShowsHere(content, close)
    ensures ScanFrom(content, start, None, None)
         == [content[start + 1..close]] + ScanFrom(content, close + 4, None, None)
  {
    SkipBare(content, start + 1, escape, Some(start), Some(start));
    SkipBare(content, escape + 2, close, Some(start), Some(start));
  }
}
