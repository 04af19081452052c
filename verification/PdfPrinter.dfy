/** Printing text as PDF (app/evaluation/formats.py,
    app/evaluation/machine_intelligence/artifacts.py) and reading it back. */
module PdfPrinter {
  import opened Wrappers
  import opened Lists
  import opened Decimals
  import opened PdfText

  // ---- text blocks -------------------------------------------------------------------

  const LINES_PER_BLOCK := 52

  /** Lines shown since the last text block was opened. */
  function LinesInBlock(ops: seq<Piece>): nat {
    if ops == [] then 0
    else
      var last := ops[|ops| - 1];
      if last == Plain("BT") then 0
      else LinesInBlock(ops[..|ops| - 1]) + if last.Show? then 1 else 0
  }

  /** Every line is shown between BT and ET, and blocks do not nest. */
  function BlockOpen(ops: seq<Piece>): Option<bool> {
    if ops == [] then Some(false)
    else
      var before, last := BlockOpen(ops[..|ops| - 1]), ops[|ops| - 1];
      if before.None? then None
      else if last == Plain("BT") then (if before.value then None else Some(true))
      else if last == Plain("ET") then (if before.value then Some(false) else None)
      else if last.Show? then (if before.value then before else None)
      else before
  }

  ghost predicate ShortBlocks(ops: seq<Piece>) {
    forall n :: 0 <= n <= |ops| ==> LinesInBlock(ops[..n]) <= LINES_PER_BLOCK
  }

  lemma {:induction false} LinesConcat(a: seq<Piece>, b: seq<Piece>)
    ensures Shown(a + b) == Shown(a) + Shown(b)
  {
    if a == [] {
      assert a + b == b;
    } else {
      assert (a + b)[1..] == a[1..] + b;
      LinesConcat(a[1..], b);
    }
  }

  lemma {:induction false} TextConcat(a: seq<Piece>, b: seq<Piece>)
    ensures Text(a + b) == Text(a) + Text(b)
  {
    if a == [] {
      assert a + b == b;
    } else {
      assert (a + b)[0] == a[0] && (a + b)[1..] == a[1..] + b;
      TextConcat(a[1..], b);
      var first := PieceText(a[0]);
      assert (first + Text(a[1..])) + Text(b) == first + (Text(a[1..]) + Text(b));
    }
  }

  lemma ShownConcat(a: seq<Piece>, b: seq<Piece>)
    ensures Shown(a + b) == Shown(a) + Shown(b)
    ensures Text(a + b) == Text(a) + Text(b)
  {
    LinesConcat(a, b);
    TextConcat(a, b);
  }

  lemma OneMoreOperator(ops: seq<Piece>, op: Piece)
    requires ShortBlocks(ops) && Unopened(ops) && (op.Plain? ==> '(' !in op.text)
    requires op.Show? ==> LinesInBlock(ops) < LINES_PER_BLOCK
    ensures ShortBlocks(ops + [op]) && Unopened(ops + [op])
    ensures Shown(ops + [op]) == Shown(ops) + if op.Show? then [op.line] else []
    ensures LinesInBlock(ops + [op]) == if op == Plain("BT") then 0 else LinesInBlock(ops) + if op.Show? then 1 else 0
    ensures BlockOpen(ops + [op]) ==
            if BlockOpen(ops).None? then None
            else if op == Plain("BT") then (if BlockOpen(ops).value then None else Some(true))
            else if op == Plain("ET") then (if BlockOpen(ops).value then Some(false) else None)
            else if op.Show? && !BlockOpen(ops).value then None
            else BlockOpen(ops)
  {
    var more := ops + [op];
    assert more[..|ops|] == ops && ops[..|ops|] == ops;
    ShownConcat(ops, [op]);
    assert [op][1..] == [];
    forall n | 0 <= n <= |more| ensures LinesInBlock(more[..n]) <= LINES_PER_BLOCK {
      if n <= |ops| { assert more[..n] == ops[..n]; } else { assert more[..n] == more; }
    }
  }

  /** What an operator sequence under construction satisfies. */
  ghost predicate Building(ops: seq<Piece>, lines: seq<string>, open: bool) {
    Shown(ops) == lines && Unopened(ops) && ShortBlocks(ops) && BlockOpen(ops) == Some(open)
  }

  lemma AddPlain(ops: seq<Piece>, lines: seq<string>, open: bool, op: Piece)
    requires Building(ops, lines, open) && op.Plain? && '(' !in op.text && op != Plain("BT") && op != Plain("ET")
    ensures Building(ops + [op], lines, open) && LinesInBlock(ops + [op]) == LinesInBlock(ops)
  {
    OneMoreOperator(ops, op);
  }

  lemma AddShow(ops: seq<Piece>, lines: seq<string>, line: string)
    requires Building(ops, lines, true) && LinesInBlock(ops) < LINES_PER_BLOCK
    ensures Building(ops + [Show(line)], lines + [line], true)
            && LinesInBlock(ops + [Show(line)]) == LinesInBlock(ops) + 1
  {
    OneMoreOperator(ops, Show(line));
  }

  lemma EndBlock(ops: seq<Piece>, lines: seq<string>)
    requires Building(ops, lines, true)
    ensures Building(ops + [Plain("ET")], lines, false)
  {
    OneMoreOperator(ops, Plain("ET"));
  }

  // Where lines are shown: "BT" starts at the origin, and "Td" moves.

  /** How far up the text position is. */
  function Height(ops: seq<Piece>): int {
    if ops == [] then 0
    else
      var before, last := Height(ops[..|ops| - 1]), ops[|ops| - 1];
      if last == Plain("BT") then 0
      else if last == Plain("50 780 Td") then before + 780
      else if last == Plain("0 -14 Td") then before - 14
      else before
  }

  /** The heights at which the lines are shown, in order. */
  function Heights(ops: seq<Piece>): seq<int> {
    if ops == [] then []
    else Heights(ops[..|ops| - 1]) + if ops[|ops| - 1].Show? then [Height(ops[..|ops| - 1])] else []
  }

  lemma HeightSnoc(ops: seq<Piece>, op: Piece)
    ensures Heights(ops + [op]) == Heights(ops) + if op.Show? then [Height(ops)] else []
    ensures Height(ops + [op]) ==
            if op == Plain("BT") then 0 else if op == Plain("50 780 Td") then Height(ops) + 780
            else if op == Plain("0 -14 Td") then Height(ops) - 14 else Height(ops)
  {
    assert (ops + [op])[..|ops|] == ops;
  }

  lemma BlockHeights(ops: seq<Piece>)
    ensures var more := ops + [Plain("BT")] + [Plain("/F1 11 Tf")] + [Plain("50 780 Td")];
            Heights(more) == Heights(ops) && Height(more) == 780
  {
    HeightSnoc(ops, Plain("BT"));
    HeightSnoc(ops + [Plain("BT")], Plain("/F1 11 Tf"));
    assert |"/F1 11 Tf"| == |"50 780 Td"| != |"BT"| && "/F1 11 Tf"[0] != "50 780 Td"[0] && |"0 -14 Td"| == 8;
    HeightSnoc(ops + [Plain("BT")] + [Plain("/F1 11 Tf")], Plain("50 780 Td"));
  }

  /** So many lines are shown, each 14 below the one before it, 52 in a block. */
  ghost predicate Descends(ops: seq<Piece>, i: nat) {
    |Heights(ops)| == i && forall k :: 0 <= k < i ==> Heights(ops)[k] == 780 - 14 * (k % 52)
  }

  /** Lines in the block after `i` lines, before the next one moves on. */
  function Steps(i: nat): nat {
    if i == 0 then 0 else (i - 1) % 52 + 1
  }

  lemma StepsMoveOn(i: nat)
    ensures Steps(i) <= 52
    ensures Steps(i) == 52 ==> i % 52 == 0
    ensures Steps(i) < 52 ==> i % 52 == Steps(i)
    ensures Steps(i + 1) == i % 52 + 1
  {
  }

  lemma NextHeight(ops: seq<Piece>, i: nat, line: string)
    requires Descends(ops, i) && Height(ops) == 780 - 14 * (i % 52)
    ensures Descends(ops + [Show(line)], i + 1) && Height(ops + [Show(line)]) == Height(ops)
  {
    HeightSnoc(ops, Show(line));
  }

  method BeginBlock(ops: seq<Piece>, ghost lines: seq<string>) returns (more: seq<Piece>)
    requires Building(ops, lines, false)
    ensures Building(more, lines, true) && LinesInBlock(more) == 0
    ensures Heights(more) == Heights(ops) && Height(more) == 780
  {
    BlockHeights(ops);
    OneMoreOperator(ops, Plain("BT"));
    more := ops + [Plain("BT")];
    AddPlain(more, lines, true, Plain("/F1 11 Tf"));
    more := more + [Plain("/F1 11 Tf")];
    AddPlain(more, lines, true, Plain("50 780 Td"));
    more := more + [Plain("50 780 Td")];
  }

  /** The operators of one page: the lines in order, in blocks of at most 52. */
  method PageOperations(lines: seq<string>) returns (ops: seq<Piece>)
    ensures Building(ops, lines, false)
    ensures |Heights(ops)| == |lines| && forall k :: 0 <= k < |lines| ==> Heights(ops)[k] == 780 - 14 * (k % 52)
  {
    ops := BeginBlock([], []);
    var ySteps := 0;
    for i := 0 to |lines|
      invariant Writing(ops, lines[..i], i) && LinesInBlock(ops) == ySteps
    {
      ops, ySteps := MoveOn(ops, lines[..i], i, ySteps);
      OneMoreLine(ops, lines, i);
      ops := ops + [Show(lines[i])];
      ySteps := ySteps + 1;
    }
    EndBlock(ops, lines[..|lines|]);
    assert lines[..|lines|] == lines;
    HeightSnoc(ops, Plain("ET"));
    ops := ops + [Plain("ET")];
  }

  /** After `i` lines, inside a block. */
  ghost predicate Writing(ops: seq<Piece>, lines: seq<string>, i: nat) {
    && Building(ops, lines, true) && LinesInBlock(ops) == Steps(i)
    && Descends(ops, i) && Height(ops) == if i == 0 then 780 else 780 - 14 * (Steps(i) - 1)
  }

  lemma OneMoreLine(ops: seq<Piece>, lines: seq<string>, i: nat)
    requires i < |lines| && Building(ops, lines[..i], true) && LinesInBlock(ops) == i % 52
    requires Descends(ops, i) && Height(ops) == 780 - 14 * (i % 52)
    ensures Writing(ops + [Show(lines[i])], lines[..i + 1], i + 1)
    ensures LinesInBlock(ops + [Show(lines[i])]) == LinesInBlock(ops) + 1
  {
    NextHeight(ops, i, lines[i]);
    StepsMoveOn(i);
    AddShow(ops, lines[..i], lines[i]);
    assert lines[..i] + [lines[i]] == lines[..i + 1];
  }

  /** To the place of the next line: a new block when this one is full, or one line down. */
  method MoveOn(ops: seq<Piece>, ghost lines: seq<string>, i: nat, ySteps: nat) returns (more: seq<Piece>, ySteps': nat)
    requires Writing(ops, lines, i) && LinesInBlock(ops) == ySteps
    ensures Building(more, lines, true) && LinesInBlock(more) == ySteps' == i % 52
    ensures Descends(more, i) && Height(more) == 780 - 14 * (i % 52)
  {
    more, ySteps' := ops, ySteps;
    StepsMoveOn(i);
    if ySteps >= LINES_PER_BLOCK {
      EndBlock(ops, lines);
      HeightSnoc(ops, Plain("ET"));
      more := BeginBlock(ops + [Plain("ET")], lines);
      ySteps' := 0;
    } else if i > 0 {
      AddPlain(ops, lines, true, Plain("0 -14 Td"));
      HeightSnoc(ops, Plain("0 -14 Td"));
      more := ops + [Plain("0 -14 Td")];
    }
  }

  // ---- objects -----------------------------------------------------------------------

  lemma DecimalIsPlain(n: nat)
    ensures '(' !in Decimal(n)
  {
    DecimalDigits(n);
  }

  /** Ten digits, padded with zeros. */
  function Offset(n: nat): string {
    seq(if |Decimal(n)| < 10 then 10 - |Decimal(n)| else 0, _ => '0') + Decimal(n)
  }

  function Joined(ops: seq<Piece>): seq<Piece> {
    if |ops| <= 1 then ops else [ops[0]] + ([Plain("\n")] + Joined(ops[1..]))
  }

  lemma PlainShowsNothing(text: string)
    ensures Shown([Plain(text)]) == [] && Text([Plain(text)]) == text
  {
    assert [Plain(text)][1..] == [];
  }

  /** A body between two pieces of structure shows what it showed. */
  lemma Between(head: string, body: seq<Piece>, foot: string)
    requires '(' !in head && '(' !in foot && Unopened(body)
    ensures var all := [Plain(head)] + body + [Plain(foot)];
            Unopened(all) && Shown(all) == Shown(body) && Text(all) == head + Text(body) + foot
  {
    PlainShowsNothing(head);
    PlainShowsNothing(foot);
    ShownConcat([Plain(head)] + body, [Plain(foot)]);
    ShownConcat([Plain(head)], body);
  }

  lemma AfterNewline(first: Piece, rest: seq<Piece>, newline: string)
    requires '(' !in newline && Unopened(rest) && (first.Plain? ==> '(' !in first.text)
    ensures var all := [first] + ([Plain(newline)] + rest);
            Unopened(all) && Shown(all) == Shown([first] + rest)
  {
    PlainShowsNothing(newline);
    LinesConcat([Plain(newline)], rest);
    LinesConcat([first], [Plain(newline)] + rest);
    LinesConcat([first], rest);
    UnopenedConcat([Plain(newline)], rest);
    UnopenedConcat([first], [Plain(newline)] + rest);
  }

  lemma UnopenedConcat(a: seq<Piece>, b: seq<Piece>)
    ensures Unopened(a + b) <==> Unopened(a) && Unopened(b)
  {
    forall p ensures p in a + b <==> p in a || p in b {}
  }

  lemma {:induction false} JoinedShowsTheSame(ops: seq<Piece>)
    requires Unopened(ops)
    ensures Shown(Joined(ops)) == Shown(ops) && Unopened(Joined(ops))
  {
    if |ops| > 1 {
      JoinedShowsTheSame(ops[1..]);
      AfterNewline(ops[0], Joined(ops[1..]), "\n");
      ShownConcat([ops[0]], Joined(ops[1..]));
      ShownConcat([ops[0]], ops[1..]);
      assert [ops[0]] + ops[1..] == ops;
    }
  }

  type Body = seq<Piece>

  function StreamHead(length: nat): (head: string)
    ensures '(' !in head
  {
    DecimalIsPlain(length);
    "<< /Length " + Decimal(length) + " >>\nstream\n"
  }

  function StreamBody(ops: seq<Piece>): Body {
    [Plain(StreamHead(|Text(Joined(ops))|))] + Joined(ops) + [Plain("\nendstream")]
  }

  lemma StreamShows(ops: seq<Piece>)
    requires Unopened(ops)
    ensures Shown(StreamBody(ops)) == Shown(ops) && Unopened(StreamBody(ops))
  {
    JoinedShowsTheSame(ops);
    Between(StreamHead(|Text(Joined(ops))|), Joined(ops), "\nendstream");
  }

  function AllShown(bodies: seq<Body>): seq<string> {
    if bodies == [] then [] else AllShown(bodies[..|bodies| - 1]) + Shown(bodies[|bodies| - 1])
  }

  // ---- the file ------------------------------------------------------------------------

  function ObjectHead(k: nat): string {
    Decimal(k) + " 0 obj\n"
  }

  function Entries(offsets: seq<nat>): string {
    if offsets == [] then ""
    else Entries(offsets[..|offsets| - 1]) + Offset(offsets[|offsets| - 1]) + " 00000 n \n"
  }

  function XrefHead(count: nat): (text: string)
    ensures '(' !in text
  {
    DecimalIsPlain(count);
    "xref\n0 " + Decimal(count) + "\n0000000000 65535 f \n"
  }

  function Trailer(count: nat, xrefAt: nat): (text: string)
    ensures '(' !in text
  {
    DecimalIsPlain(count);
    DecimalIsPlain(xrefAt);
    "trailer\n<< /Size " + Decimal(count) + (" /Root 1 0 R >>\n" + "startxref\n") + Decimal(xrefAt) + "\n%%EOF\n"
  }

  /** Cross-reference table and trailer. */
  function Tail(offsets: seq<nat>, xrefAt: nat): string {
    XrefHead(|offsets| + 1) + Entries(offsets) + Trailer(|offsets| + 1, xrefAt)
  }

  /** Text `t` stands in `doc` at position `at`. */
  predicate StandsAt(doc: string, at: nat, t: string) {
    at + |t| <= |doc| && doc[at..at + |t|] == t
  }

  lemma {:induction false} OffsetIsPlain(n: nat)
    ensures '(' !in Offset(n)
  {
    DecimalIsPlain(n);
  }

  lemma {:induction false} EntriesArePlain(offsets: seq<nat>)
    ensures '(' !in Entries(offsets)
  {
    if offsets != [] {
      EntriesArePlain(offsets[..|offsets| - 1]);
      OffsetIsPlain(offsets[|offsets| - 1]);
    }
  }

  lemma TailIsPlain(offsets: seq<nat>, xrefAt: nat)
    ensures '(' !in Tail(offsets, xrefAt)
  {
    EntriesArePlain(offsets);
  }

  lemma {:induction false} EntriesSnoc(offsets: seq<nat>, n: nat)
    requires n < |offsets|
    ensures Entries(offsets[..n + 1]) == Entries(offsets[..n]) + Offset(offsets[n]) + " 00000 n \n"
  {
    assert offsets[..n + 1][..n] == offsets[..n];
  }

  /** An object with its number. */
  function Numbered(k: nat, body: Body): seq<Piece> {
    [Plain(ObjectHead(k))] + body + [Plain("\nendobj\n")]
  }

  function ObjectText(k: nat, body: Body): string {
    ObjectHead(k) + Text(body) + "\nendobj\n"
  }

  lemma OneMoreObject(pieces: seq<Piece>, k: nat, body: Body)
    requires Unopened(pieces) && Unopened(body)
    ensures var more := pieces + Numbered(k, body);
            && Unopened(more) && Shown(more) == Shown(pieces) + Shown(body)
            && Text(more) == Text(pieces) + ObjectText(k, body)
  {
    DecimalIsPlain(k);
    Between(ObjectHead(k), body, "\nendobj\n");
    ShownConcat(pieces, Numbered(k, body));
  }

  function ObjectTexts(bodies: seq<Body>): seq<string> {
    seq(|bodies|, k requires 0 <= k < |bodies| => ObjectText(k + 1, bodies[k]))
  }

  /** Each of these texts stands at its offset. */
  ghost predicate TextsStand(doc: string, offsets: seq<nat>, texts: seq<string>) {
    |offsets| <= |texts| && forall k :: 0 <= k < |offsets| ==> StandsAt(doc, offsets[k], texts[k])
  }

  ghost predicate ObjectsStand(doc: string, offsets: seq<nat>, bodies: seq<Body>) {
    TextsStand(doc, offsets, ObjectTexts(bodies))
  }

  /** The numbered objects, each at the offset noted for it. */
  method NumberObjects(bodies: seq<Body>) returns (pieces: seq<Piece>, offsets: seq<nat>)
    requires forall b :: b in bodies ==> Unopened(b)
    ensures Unopened(pieces) && Shown(pieces) == AllShown(bodies)
    ensures |offsets| == |bodies| && ObjectsStand(Text(pieces), offsets, bodies)
  {
    pieces, offsets := [Plain("%PDF-1.4\n")], [];
    PlainShowsNothing("%PDF-1.4\n");
    for n := 0 to |bodies|
      invariant Laid(pieces, offsets, bodies, n)
    {
      OneMoreLaid(pieces, offsets, bodies, n);
      offsets := offsets + [|Text(pieces)|];
      pieces := pieces + Numbered(n + 1, bodies[n]);
    }
    assert bodies[..|bodies|] == bodies;
  }

  /** The first `n` objects are laid out. */
  ghost predicate Laid(pieces: seq<Piece>, offsets: seq<nat>, bodies: seq<Body>, n: nat) {
    && n <= |bodies| && |offsets| == n
    && Unopened(pieces) && Shown(pieces) == AllShown(bodies[..n]) && ObjectsStand(Text(pieces), offsets, bodies)
  }

  lemma OneMoreLaid(pieces: seq<Piece>, offsets: seq<nat>, bodies: seq<Body>, n: nat)
    requires n < |bodies| && Laid(pieces, offsets, bodies, n) && Unopened(bodies[n])
    ensures Laid(pieces + Numbered(n + 1, bodies[n]), offsets + [|Text(pieces)|], bodies, n + 1)
  {
    assert bodies[..n + 1][..n] == bodies[..n];
    OneMoreObject(pieces, n + 1, bodies[n]);
    OneMoreStands(Text(pieces), offsets, ObjectTexts(bodies));
  }

  lemma OneMoreStands(doc: string, offsets: seq<nat>, texts: seq<string>)
    requires |offsets| < |texts| && TextsStand(doc, offsets, texts)
    ensures TextsStand(doc + texts[|offsets|], offsets + [|doc|], texts)
  {
    StandsStill(doc, texts[|offsets|], offsets, texts);
  }

  lemma StandsStill(before: string, added: string, offsets: seq<nat>, texts: seq<string>)
    requires TextsStand(before, offsets, texts)
    ensures TextsStand(before + added, offsets, texts) && StandsAt(before + added, |before|, added)
  {
    forall k | 0 <= k < |offsets| ensures StandsAt(before + added, offsets[k], texts[k]) {
      assert (before + added)[offsets[k]..offsets[k] + |texts[k]|] == before[offsets[k]..offsets[k] + |texts[k]|];
    }
  }

  /** A file whose strings are the escaped lines, whose cross-reference entries point at
      the objects they number, and whose `startxref` points at the table. */
  method Assemble(bodies: seq<Body>) returns (doc: string, ghost offsets: seq<nat>, ghost xrefAt: nat)
    requires forall b :: b in bodies ==> Unopened(b)
    ensures Strings(doc) == Printed(AllShown(bodies))
    ensures |offsets| == |bodies| && xrefAt <= |doc| && doc[xrefAt..] == Tail(offsets, xrefAt)
    ensures ObjectsStand(doc, offsets, bodies)
  {
    var pieces, at := NumberObjects(bodies);
    var xref := "";
    for n := 0 to |at|
      invariant xref == Entries(at[..n])
    {
      EntriesSnoc(at, n);
      xref := xref + Offset(at[n]) + " 00000 n \n";
    }
    assert at[..|at|] == at;
    var text := Text(pieces);
    var tail := XrefHead(|at| + 1) + xref + Trailer(|at| + 1, |text|);
    doc, offsets, xrefAt := text + tail, at, |text|;
    TailIsPlain(at, |text|);
    StringsOfDocument(pieces, tail);
    StandsStill(text, tail, at, ObjectTexts(bodies));
  }

  lemma StringsOfDocument(pieces: seq<Piece>, tail: string)
    requires Unopened(pieces) && '(' !in tail
    ensures Strings(Text(pieces) + tail) == Printed(Shown(pieces))
  {
    ShownConcat(pieces, [Plain(tail)]);
    PlainShowsNothing(tail);
    ScanPrinted("", pieces + [Plain(tail)]);
    assert "" + Text(pieces + [Plain(tail)]) == Text(pieces) + tail;
    assert Shown(pieces) + [] == Shown(pieces);
  }

  // ---- the two printers ----------------------------------------------------------------

  function Catalog(): (text: string)
    ensures '(' !in text
  {
    "<< /Type /Catalog /Pages 2 0 R >>"
  }

  function Font(): (text: string)
    ensures '(' !in text
  {
    "<< /Type /Font /Subtype /Type1" + " /BaseFont /Helvetica >>"
  }

  function Kids(count: nat, i: nat): (kids: string)
    requires i <= count
    ensures '(' !in kids
    decreases count - i
  {
    DecimalIsPlain(3 + i);
    if i == count then ""
    else Decimal(3 + i) + (if i + 1 < count then " 0 R " else " 0 R") + Kids(count, i + 1)
  }

  function PageTree(count: nat): (text: string)
    ensures '(' !in text
  {
    DecimalIsPlain(count);
    "<< /Type /Pages /Kids [" + Kids(count, 0) + "] /Count " + Decimal(count) + " >>"
  }

  function SinglePageTree(): (text: string)
    ensures '(' !in text
  {
    "<< /Type /Pages /Kids [3 0 R]" + " /Count 1 >>"
  }

  function PageHead(): (text: string)
    ensures '(' !in text
  {
    "<< /Type /Page /Parent 2 0 R" + " /MediaBox [0 0 612 792]" + " /Contents "
  }

  /** A page refers to its content stream and to the font by object number. */
  function PageObject(content: nat, font: nat): (text: string)
    ensures '(' !in text
  {
    DecimalIsPlain(content);
    DecimalIsPlain(font);
    PageHead() + Decimal(content) + " 0 R /Resources << /Font << /F1 " + Decimal(font) + " 0 R >> >> >>"
  }

  /** The object that page `i` of `n` names as its contents. */
  function ContentOf(bodies: seq<Body>, n: nat, i: nat): Body
    requires i < n && |bodies| >= 2 * n + 2
  {
    bodies[(3 + n + i) - 1]
  }

  /** Page `i` refers to object `3 + n + i` for its contents, and to the last for the font. */
  function PageObjects(n: nat): seq<string> {
    seq(n, i requires 0 <= i => PageObject(3 + n + i, 3 + 2 * n))
  }

  /** The first `i` page objects follow the catalog and the page tree. */
  ghost predicate PagesPoint(bodies: seq<Body>, objects: seq<string>, i: nat) {
    i <= |objects| && |bodies| >= 2 + i && forall x :: 2 <= x < 2 + i ==> bodies[x] == [Plain(objects[x - 2])]
  }

  /** The bodies of a file of so many pages: catalog, page tree, pages, contents, font,
      where page `i` refers to contents and font by the numbers they get. */
  ghost predicate Layout(bodies: seq<Body>, streams: seq<seq<Piece>>) {
    var n := |streams|;
    && |bodies| == 2 * n + 3
    && bodies[0] == [Plain(Catalog())] && bodies[1] == [Plain(PageTree(n))] && bodies[2 * n + 2] == [Plain(Font())]
    && PagesPoint(bodies, PageObjects(n), n)
    && (forall i :: 0 <= i < n ==> ContentOf(bodies, n, i) == StreamBody(streams[i]))
  }

  lemma OneMoreBody(bodies: seq<Body>, body: Body)
    ensures AllShown(bodies + [body]) == AllShown(bodies) + Shown(body)
  {
    assert (bodies + [body])[..|bodies|] == bodies;
  }

  /** No object opens a string by its structure, and together they show these lines. */
  ghost predicate AllShow(bodies: seq<Body>, lines: seq<string>) {
    (forall b :: b in bodies ==> Unopened(b)) && AllShown(bodies) == lines
  }

  lemma OneMoreShows(bodies: seq<Body>, lines: seq<string>, body: Body, more: seq<string>)
    requires AllShow(bodies, lines) && Unopened(body) && Shown(body) == more
    ensures AllShow(bodies + [body], lines + more)
  {
    OneMoreBody(bodies, body);
  }

  method AddStructure(bodies: seq<Body>, text: string, ghost lines: seq<string>) returns (more: seq<Body>)
    requires AllShow(bodies, lines) && '(' !in text
    ensures more == bodies + [[Plain(text)]] && AllShow(more, lines)
  {
    PlainShowsNothing(text);
    OneMoreShows(bodies, lines, [Plain(text)], []);
    assert lines + [] == lines;
    more := bodies + [[Plain(text)]];
  }

  method AddStream(bodies: seq<Body>, ops: seq<Piece>, ghost lines: seq<string>) returns (more: seq<Body>)
    requires AllShow(bodies, lines) && Unopened(ops)
    ensures more == bodies + [StreamBody(ops)] && AllShow(more, lines + Shown(ops))
  {
    StreamShows(ops);
    OneMoreShows(bodies, lines, StreamBody(ops), Shown(ops));
    more := bodies + [StreamBody(ops)];
  }

  method AddPages(front: seq<Body>, n: nat) returns (bodies: seq<Body>)
    requires |front| == 2 && AllShow(front, [])
    ensures front <= bodies && |bodies| == 2 + n && AllShow(bodies, []) && PagesPoint(bodies, PageObjects(n), n)
  {
    ghost var objects := PageObjects(n);
    bodies := front;
    for i := 0 to n
      invariant front <= bodies && |bodies| == 2 + i && AllShow(bodies, []) && PagesPoint(bodies, objects, i)
    {
      var page := PageObject(3 + n + i, 3 + 2 * n);
      assert page == objects[i];
      bodies := AddStructure(bodies, page, []);
    }
  }

  function StreamBodies(streams: seq<seq<Piece>>): seq<Body> {
    seq(|streams|, i requires 0 <= i < |streams| => StreamBody(streams[i]))
  }

  /** The last objects are the contents of the pages. */
  ghost predicate Contents(bodies: seq<Body>, first: nat, contents: seq<Body>, i: nat) {
    && i <= |contents| && |bodies| >= first + i
    && forall x :: first <= x < first + i ==> bodies[x] == contents[x - first]
  }

  /** One operator sequence for each page, showing its lines. */
  ghost predicate Streams(streams: seq<seq<Piece>>, pages: seq<seq<string>>) {
    |streams| == |pages| && forall i :: 0 <= i < |pages| ==> Unopened(streams[i]) && Shown(streams[i]) == pages[i]
  }

  method AddContents(front: seq<Body>, streams: seq<seq<Piece>>, ghost pages: seq<seq<string>>)
      returns (bodies: seq<Body>)
    requires Streams(streams, pages)
    requires AllShow(front, [])
    ensures front <= bodies && |bodies| == |front| + |streams| && AllShow(bodies, Flatten(pages))
    ensures Contents(bodies, |front|, StreamBodies(streams), |streams|)
  {
    ghost var contents := StreamBodies(streams);
    bodies := front;
    for i := 0 to |streams|
      invariant |bodies| == |front| + i && front <= bodies && Contents(bodies, |front|, contents, i)
      invariant AllShow(bodies, Flatten(pages[..i]))
    {
      var body := StreamBody(streams[i]);
      OneMoreContent(bodies, streams, pages, i, body);
      assert body == contents[i];
      bodies := bodies + [body];
    }
    assert pages[..|pages|] == pages;
  }

  lemma OneMoreContent(bodies: seq<Body>, streams: seq<seq<Piece>>, pages: seq<seq<string>>, i: nat, body: Body)
    requires Streams(streams, pages) && i < |streams| && AllShow(bodies, Flatten(pages[..i]))
             && body == StreamBody(streams[i])
    ensures AllShow(bodies + [body], Flatten(pages[..i + 1]))
  {
    FlattenSnoc(pages, i);
    StreamShows(streams[i]);
    OneMoreShows(bodies, Flatten(pages[..i]), body, pages[i]);
  }

  lemma FlattenSnoc(pages: seq<seq<string>>, i: nat)
    requires i < |pages|
    ensures Flatten(pages[..i + 1]) == Flatten(pages[..i]) + pages[i]
  {
    assert pages[..i + 1][..i] == pages[..i];
  }

  method BuildBodies(streams: seq<seq<Piece>>, ghost pages: seq<seq<string>>) returns (bodies: seq<Body>)
    requires Streams(streams, pages)
    ensures Layout(bodies, streams) && AllShow(bodies, Flatten(pages))
  {
    var front := AddStructure([], Catalog(), []);
    front := AddStructure(front, PageTree(|streams|), []);
    var withPages := AddPages(front, |streams|);
    var withContents := AddContents(withPages, streams, pages);
    bodies := AddStructure(withContents, Font(), Flatten(pages));
    LaidOut(front, withPages, withContents, bodies, streams);
  }

  lemma LaidOut(front: seq<Body>, withPages: seq<Body>, withContents: seq<Body>, bodies: seq<Body>,
      streams: seq<seq<Piece>>)
    requires front == [[Plain(Catalog())], [Plain(PageTree(|streams|))]]
    requires front <= withPages && |withPages| == 2 + |streams|
             && PagesPoint(withPages, PageObjects(|streams|), |streams|)
    requires withPages <= withContents && |withContents| == 2 + 2 * |streams|
             && Contents(withContents, 2 + |streams|, StreamBodies(streams), |streams|)
    requires bodies == withContents + [[Plain(Font())]]
    ensures Layout(bodies, streams)
  {
    var n := |streams|;
    assert forall x :: 0 <= x < 2 + n ==> bodies[x] == withPages[x];
    assert bodies[0] == front[0] && bodies[1] == front[1];
    forall i | 0 <= i < n ensures ContentOf(bodies, n, i) == StreamBody(streams[i]) {
      assert bodies[2 + n + i] == withContents[2 + n + i];
    }
  }

  /** `build_multipage_pdf`, from the lines of each page. */
  method BuildMultipagePdf(pages: seq<seq<string>>)
      returns (doc: string, ghost offsets: seq<nat>, ghost bodies: seq<Body>)
    ensures Strings(doc) == Printed(Flatten(pages))
    ensures exists streams :: |streams| == |pages| && Layout(bodies, streams)
                              && forall i :: 0 <= i < |pages| ==> Building(streams[i], pages[i], false)
    ensures |offsets| == |bodies| && ObjectsStand(doc, offsets, bodies)
    ensures exists xrefAt :: 0 <= xrefAt <= |doc| && doc[xrefAt..] == Tail(offsets, xrefAt)
  {
    var streams: seq<seq<Piece>> := [];
    for i := 0 to |pages|
      invariant |streams| == i && forall k :: 0 <= k < i ==> Building(streams[k], pages[k], false)
    {
      var ops := PageOperations(pages[i]);
      streams := streams + [ops];
    }
    var all := BuildBodies(streams, pages);
    bodies := all;
    ghost var xrefAt;
    doc, offsets, xrefAt := Assemble(all);
  }

  /** `_pdf`: one page, with fixed object numbers. */
  method Pdf(lines: seq<string>) returns (doc: string)
    ensures Strings(doc) == Printed(lines)
  {
    var ops := PageOperations(lines);
    var bodies := AddStructure([], Catalog(), []);
    bodies := AddStructure(bodies, SinglePageTree(), []);
    bodies := AddStructure(bodies, PageObject(4, 5), []);
    bodies := AddStream(bodies, ops, []);
    bodies := AddStructure(bodies, Font(), [] + lines);
    assert [] + lines == lines;
    ghost var offsets, xrefAt;
    doc, offsets, xrefAt := Assemble(bodies);
  }

  // ---- reading back -----------------------------------------------------------------------

  /** What a line can bring back: its first 110 characters, in Latin-1. */
  function Kept(line: string): string {
    Latin(Clip(line))
  }

  function AllKept(lines: seq<string>): seq<string> {
    if lines == [] then [] else AllKept(lines[..|lines| - 1]) + [Kept(lines[|lines| - 1])]
  }

  lemma {:induction false} PrintedSnoc(lines: seq<string>, line: string)
    ensures Printed(lines + [line]) == Printed(lines) + [PdfEscape(Clip(line))]
  {
    if lines != [] {
      assert (lines + [line])[1..] == lines[1..] + [line];
      PrintedSnoc(lines[1..], line);
    } else {
      assert [line][1..] == [] && [] + [line] == [line];
    }
  }

  /** Unescaping the strings of a printed file gives back every line, in order. */
  lemma {:induction false} PrintedLinesComeBack(lines: seq<string>)
    ensures Unescaped(Printed(lines)) == AllKept(lines)
  {
    if lines != [] {
      var before, last := lines[..|lines| - 1], lines[|lines| - 1];
      assert lines == before + [last];
      PrintedSnoc(before, last);
      assert (Printed(before) + [PdfEscape(Clip(last))])[..|Printed(before)|] == Printed(before);
      PrintedLinesComeBack(before);
      UnescapeUndoesEscape(Clip(last));
    }
  }

  /** Short Latin-1 lines come back unchanged. */
  lemma {:induction false} LinesAreKept(lines: seq<string>)
    requires Printable(lines)
    ensures AllKept(lines) == lines
  {
    if lines != [] {
      var before, last := lines[..|lines| - 1], lines[|lines| - 1];
      assert lines == before + [last];
      assert last in lines && forall s :: s in before ==> s in lines;
      LinesAreKept(before);
      LatinKeepsLatin(last);
    }
  }

  /** Each page after the first opens with a title block, and nothing else does,
      except perhaps the very first line. */
  ghost predicate Titled(pages: seq<seq<string>>) {
    forall i, j :: 0 <= i < |pages| && 0 <= j < |pages[i]| && (i > 0 || j > 0) ==> (OpensPage(pages[i][j]) <==> j == 0)
  }

  lemma {:induction false} GroupsAreNonempty(texts: seq<string>)
    ensures forall i :: 0 <= i < |GroupPages(texts)| ==> GroupPages(texts)[i] != []
  {
    if texts != [] { GroupsAreNonempty(texts[..|texts| - 1]); }
  }

  lemma {:induction false} GroupsAreTitled(texts: seq<string>)
    ensures Titled(GroupPages(texts))
  {
    if texts != [] {
      GroupsAreTitled(texts[..|texts| - 1]);
      GroupsAreNonempty(texts[..|texts| - 1]);
    }
  }

  /** Pages of lines come back as the same pages exactly when they are titled. */
  lemma PagesComeBack(pages: seq<seq<string>>)
    requires NoneEmpty(pages)
    ensures GroupPages(Flatten(pages)) == pages <==> Titled(pages)
  {
    GroupsAreTitled(Flatten(pages));
    if Titled(pages) { TitledPagesComeBack(pages); }
  }

  ghost predicate NoneEmpty(pages: seq<seq<string>>) {
    forall i :: 0 <= i < |pages| ==> pages[i] != []
  }

  lemma TitledWithoutLastLine(before: seq<seq<string>>, last: seq<string>)
    requires Titled(before + [last]) && NoneEmpty(before + [last])
    ensures Titled(before) && NoneEmpty(before)
    ensures |last| > 1 ==> Titled(before + [last[..|last| - 1]]) && NoneEmpty(before + [last[..|last| - 1]])
    ensures |last| > 0 && (before != [] || |last| > 1 ==> (OpensPage(last[|last| - 1]) <==> |last| == 1))
  {
    var pages := before + [last];
    assert forall i :: 0 <= i < |before| ==> pages[i] == before[i];
    assert pages[|before|] == last && last != [];
    if |last| > 1 {
      var shorter := before + [last[..|last| - 1]];
      assert forall i :: 0 <= i < |before| ==> shorter[i] == before[i];
      assert shorter[|before|] == last[..|last| - 1];
    }
  }

  lemma {:induction false} TitledPagesComeBack(pages: seq<seq<string>>)
    requires Titled(pages) && NoneEmpty(pages)
    ensures GroupPages(Flatten(pages)) == pages
    decreases |pages|, if pages == [] then 0 else |pages[|pages| - 1]|
  {
    if pages != [] {
      var before, last := pages[..|pages| - 1], pages[|pages| - 1];
      assert pages == before + [last];
      TitledWithoutLastLine(before, last);
      AllButTheLastLine(before, last);
      assert last == last[..|last| - 1] + [last[|last| - 1]];
      if |last| == 1 {
        TitledPagesComeBack(before);
      } else {
        TitledPagesComeBack(before + [last[..|last| - 1]]);
      }
    }
  }

  /** The text without its last line: the pages without it. */
  lemma AllButTheLastLine(before: seq<seq<string>>, last: seq<string>)
    requires last != []
    ensures var texts, init := Flatten(before + [last]), last[..|last| - 1];
            && texts != [] && texts[|texts| - 1] == last[|last| - 1]
            && texts[..|texts| - 1] == (if init == [] then Flatten(before) else Flatten(before + [init]))
            && (before + [init])[..|before|] == before
  {
    var init := last[..|last| - 1];
    assert (before + [last])[..|before|] == before;
    assert (before + [init])[..|before|] == before;
    assert Flatten(before + [last]) == Flatten(before) + last;
    assert Flatten(before + [init]) == Flatten(before) + init;
  }

  /** Lines short enough and in Latin-1. */
  ghost predicate Printable(lines: seq<string>) {
    forall s :: s in lines ==> |s| <= LINE_WIDTH && forall c :: c in s ==> c as int < 256
  }

  /** Printing pages and reading the file: within the limits, titled pages of lines come
      back page by page, cut to 110 Latin-1 characters; beyond them nothing does. */
  method PrintAndRead(pages: seq<seq<string>>, sheet: SheetNumber) returns (numbered: seq<Page>)
    ensures var kept := AllKept(Flatten(pages));
            numbered == if WithinLimits(kept) then NumberedPages(GroupPages(kept), sheet) else []
    ensures WithinLimits(Flatten(pages)) && Printable(Flatten(pages)) && Titled(pages) && NoneEmpty(pages)
            ==> numbered == NumberedPages(pages, sheet)
  {
    ghost var offsets, bodies;
    var doc;
    doc, offsets, bodies := BuildMultipagePdf(pages);
    numbered := ExtractPdfPages(doc, sheet);
    PrintedLinesComeBack(Flatten(pages));
    if Printable(Flatten(pages)) && Titled(pages) && NoneEmpty(pages) {
      LinesAreKept(Flatten(pages));
      TitledPagesComeBack(pages);
    }
  }
}
