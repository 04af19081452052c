/** The canonical form of a text (app/services/normalization.py). Unicode NFC is a
    parameter; `Composes` lists what is used of it. */
module Normalization {
  import opened Lists

  /** What `\s` matches and `strip` removes. */
  predicate IsSpace(c: char) {
    var n := c as int;
    || 0x09 <= n <= 0x0D || 0x1C <= n <= 0x20 || n == 0x85 || n == 0xA0 || n == 0x1680
    || 0x2000 <= n <= 0x200A || n == 0x2028 || n == 0x2029 || n == 0x202F || n == 0x205F || n == 0x3000
  }

  predicate IsHorizontal(c: char) {
    IsSpace(c) && c != '\n'
  }

  // ---- the passes ------------------------------------------------------------------

  /** CR and CRLF become LF. */
  function LineEndings(s: string): string {
    if s == "" then ""
    else if s[0] != '\r' then [s[0]] + LineEndings(s[1..])
    else if |s| > 1 && s[1] == '\n' then "\n" + LineEndings(s[2..])
    else "\n" + LineEndings(s[1..])
  }

  function DropHorizontal(s: string): (r: string)
    ensures |r| <= |s|
  {
    if s != "" && IsHorizontal(s[0]) then DropHorizontal(s[1..]) else s
  }

  /** Every run of horizontal whitespace becomes one space. */
  function Horizontal(s: string): string
    decreases |s|
  {
    if s == "" then ""
    else if IsHorizontal(s[0]) then " " + Horizontal(DropHorizontal(s[1..]))
    else [s[0]] + Horizontal(s[1..])
  }

  function RightStrip(s: string): string {
    if s == "" then ""
    else if IsSpace(s[|s| - 1]) then RightStrip(s[..|s| - 1]) else s
  }

  function LeftStrip(s: string): string {
    if s != "" && IsSpace(s[0]) then LeftStrip(s[1..]) else s
  }

  /** The lines joined again, each without trailing whitespace. */
  function JoinStripped(lines: seq<string>): string
    requires lines != []
  {
    if |lines| == 1 then RightStrip(lines[0]) else RightStrip(lines[0]) + "\n" + JoinStripped(lines[1..])
  }

  function DropNewlines(s: string): (r: string)
    ensures |r| <= |s|
  {
    if s != "" && s[0] == '\n' then DropNewlines(s[1..]) else s
  }

  predicate ThreeNewlines(s: string) {
    |s| >= 3 && s[0] == '\n' && s[1] == '\n' && s[2] == '\n'
  }

  /** Three or more newlines in a row become two. */
  function BlankLines(s: string): string
    decreases |s|
  {
    if s == "" then ""
    else if ThreeNewlines(s) then "\n\n" + BlankLines(DropNewlines(s[3..]))
    else [s[0]] + BlankLines(s[1..])
  }

  function Strip(s: string): string {
    RightStrip(LeftStrip(s))
  }

  function Passes(s: string): string {
    Strip(BlankLines(JoinStripped(Split(Horizontal(LineEndings(s)), '\n'))))
  }

  /** `normalize_text`. */
  function NormalizeText(nfc: string -> string, text: string): string {
    Passes(nfc(text))
  }

  // ---- canonical texts ---------------------------------------------------------------

  /** No whitespace but spaces and newlines, no two spaces in a row, no space before a
      newline, no three newlines in a row, none of them at either end. */
  predicate Canonical(s: string) {
    && (forall i :: 0 <= i < |s| && IsSpace(s[i]) ==> s[i] == ' ' || s[i] == '\n')
    && (forall i :: 0 <= i < |s| - 1 && s[i] == ' ' ==> s[i + 1] != ' ' && s[i + 1] != '\n')
    && (forall i :: 0 <= i < |s| - 2 && s[i] == '\n' && s[i + 1] == '\n' ==> s[i + 2] != '\n')
    && (s != "" ==> !IsSpace(s[0]) && !IsSpace(s[|s| - 1]))
  }

  /** The maximal runs of characters that are not whitespace. */
  function Words(s: string): (words: seq<string>)
    ensures StartsWord(s) ==> words != []
  {
    if s == "" then []
    else if IsSpace(s[0]) then Words(s[1..])
    else
      var rest := Words(s[1..]);
      if StartsWord(s[1..]) then [[s[0]] + rest[0]] + rest[1..] else [[s[0]]] + rest
  }

  predicate StartsWord(s: string) {
    s != "" && !IsSpace(s[0])
  }

  /** Stripping lines, seen character by character. */
  function TrimLines(s: string): string {
    if s == "" then ""
    else
      var rest := TrimLines(s[1..]);
      if IsHorizontal(s[0]) && (rest == "" || rest[0] == '\n') then rest else [s[0]] + rest
  }

  /** No run of horizontal whitespace other than one space. */
  predicate Single(s: string) {
    s != "" ==>
      && (IsHorizontal(s[0]) ==> s[0] == ' ' && (|s| > 1 ==> !IsHorizontal(s[1])))
      && Single(s[1..])
  }

  /** No horizontal whitespace at the end of a line. */
  predicate Trimmed(s: string) {
    s != "" ==> (IsHorizontal(s[0]) ==> |s| > 1 && s[1] != '\n') && Trimmed(s[1..])
  }

  predicate NoGaps(s: string) {
    s != "" ==> !ThreeNewlines(s) && NoGaps(s[1..])
  }

  // ---- what each pass establishes and keeps --------------------------------------------

  lemma {:induction false} LineEndingsPass(s: string)
    ensures '\r' !in LineEndings(s)
    ensures '\r' !in s ==> LineEndings(s) == s
    ensures StartsWord(LineEndings(s)) == StartsWord(s) && Words(LineEndings(s)) == Words(s)
    decreases |s|
  {
    if s != "" {
      assert s == [s[0]] + s[1..];
      var rest := if s[0] == '\r' && |s| > 1 && s[1] == '\n' then s[2..] else s[1..];
      LineEndingsPass(rest);
      assert LineEndings(s)[1..] == LineEndings(rest);
      if |rest| + 2 == |s| { assert s[1..][1..] == rest; }
    }
  }

  lemma {:induction false} DropHorizontalPass(s: string)
    ensures DropHorizontal(s) != "" ==> !IsHorizontal(DropHorizontal(s)[0])
    ensures Words(DropHorizontal(s)) == Words(s)
    ensures s != "" && !IsHorizontal(s[0]) ==> DropHorizontal(s) == s
  {
    if s != "" && IsHorizontal(s[0]) { DropHorizontalPass(s[1..]); }
  }

  lemma {:induction false} HorizontalPass(s: string)
    ensures Single(Horizontal(s))
    ensures Horizontal(s) == "" <==> s == ""
    ensures s != "" ==>
            (IsHorizontal(Horizontal(s)[0]) <==> IsHorizontal(s[0])) && (Horizontal(s)[0] == '\n' <==> s[0] == '\n')
    ensures StartsWord(Horizontal(s)) == StartsWord(s) && Words(Horizontal(s)) == Words(s)
    decreases |s|
  {
    if s != "" {
      if IsHorizontal(s[0]) {
        var rest := DropHorizontal(s[1..]);
        DropHorizontalPass(s[1..]);
        HorizontalPass(rest);
        assert Horizontal(s)[1..] == Horizontal(rest);
      } else {
        HorizontalPass(s[1..]);
        assert Horizontal(s)[1..] == Horizontal(s[1..]);
      }
    }
  }

  lemma {:induction false} SingleIsFixed(s: string)
    requires Single(s)
    ensures Horizontal(s) == s
  {
    if s != "" {
      SingleIsFixed(s[1..]);
      assert DropHorizontal(s[1..]) == s[1..] || !IsHorizontal(s[0]);
    }
  }

  lemma {:induction false} TrimPass(s: string)
    requires Single(s)
    ensures Trimmed(TrimLines(s)) && Single(TrimLines(s))
    ensures StartsWord(TrimLines(s)) == StartsWord(s) && Words(TrimLines(s)) == Words(s)
    ensures TrimLines(s) != "" && s != "" && !IsHorizontal(s[0]) ==> TrimLines(s)[0] == s[0]
    ensures s != "" && !IsHorizontal(s[0]) ==> TrimLines(s) != ""
  {
    if s != "" {
      TrimPass(s[1..]);
      var rest := TrimLines(s[1..]);
      if TrimLines(s) != rest { assert TrimLines(s)[1..] == rest; }
    }
  }

  lemma {:induction false} TrimmedIsFixed(s: string)
    requires Trimmed(s)
    ensures TrimLines(s) == s
  {
    if s != "" { TrimmedIsFixed(s[1..]); }
  }

  /** Splitting, stripping and joining is trimming. */
  lemma {:induction false} JoinStrippedTrims(s: string)
    ensures JoinStripped(Split(s, '\n')) == TrimLines(s)
  {
    if s != "" {
      var rest := Split(s[1..], '\n');
      JoinStrippedTrims(s[1..]);
      SplitLeavesNoSeparator(s[1..], '\n');
      assert rest[0] in rest;
      if s[0] == '\n' {
        assert Split(s, '\n')[1..] == rest;
      } else {
        assert Split(s, '\n')[1..] == rest[1..];
        StripWithHead(s[0], rest[0]);
        FirstLineJoined(rest);
      }
    }
  }

  lemma {:induction false} StripWithHead(c: char, s: string)
    ensures RightStrip([c] + s) == if RightStrip(s) == "" && IsSpace(c) then "" else [c] + RightStrip(s)
    decreases |s|
  {
    var all := [c] + s;
    if s == "" {
      assert all == [c] && all[..0] == "";
      assert IsSpace(c) ==> RightStrip(all) == RightStrip(all[..0]);
    } else {
      assert all[..|all| - 1] == [c] + s[..|s| - 1];
      StripWithHead(c, s[..|s| - 1]);
    }
  }

  lemma {:induction false} StripKeepsNewlines(s: string)
    requires '\n' !in s
    ensures '\n' !in RightStrip(s)
  {
    if s != "" && IsSpace(s[|s| - 1]) { StripKeepsNewlines(s[..|s| - 1]); }
  }

  /** How the joined text begins tells whether its first line is blank. */
  lemma FirstLineJoined(lines: seq<string>)
    requires lines != [] && '\n' !in lines[0]
    ensures var text := JoinStripped(lines);
            RightStrip(lines[0]) == "" <==> text == "" || text[0] == '\n'
  {
    StripKeepsNewlines(lines[0]);
  }

  lemma {:induction false} DropNewlinesPass(s: string)
    ensures DropNewlines(s) != "" ==> DropNewlines(s)[0] != '\n'
    ensures Words(DropNewlines(s)) == Words(s)
    ensures Single(s) ==> Single(DropNewlines(s))
    ensures Trimmed(s) ==> Trimmed(DropNewlines(s))
  {
    if s != "" && s[0] == '\n' { DropNewlinesPass(s[1..]); }
  }

  lemma {:induction false} BlankLinesPass(s: string)
    requires Single(s) && Trimmed(s)
    ensures Single(BlankLines(s)) && Trimmed(BlankLines(s)) && NoGaps(BlankLines(s))
    ensures BlankLines(s) == "" <==> s == ""
    ensures s != "" ==> BlankLines(s)[0] == s[0]
    ensures |BlankLines(s)| > 1 ==> |s| > 1 && (BlankLines(s)[1] == '\n' <==> s[1] == '\n')
    ensures |s| > 1 ==> |BlankLines(s)| > 1
    ensures ThreeNewlines(BlankLines(s)) ==> ThreeNewlines(s)
    ensures StartsWord(BlankLines(s)) == StartsWord(s) && Words(BlankLines(s)) == Words(s)
    decreases |s|
  {
    if s != "" {
      if ThreeNewlines(s) {
        GapCloses(s);
      } else {
        BlankLinesPass(s[1..]);
        var rest := BlankLines(s[1..]);
        assert BlankLines(s)[1..] == rest;
        assert |rest| > 0 ==> rest[0] == s[1];
      }
    }
  }

  lemma GapCloses(s: string)
    requires Single(s) && Trimmed(s) && ThreeNewlines(s)
    ensures var r := BlankLines(s);
            Single(r) && Trimmed(r) && NoGaps(r) && |r| > 1 && r[0] == '\n' && r[1] == '\n' && !ThreeNewlines(r)
    ensures Words(BlankLines(s)) == Words(s)
    decreases |s|, 0
  {
    assert s[1..][1..] == s[2..] && s[2..][1..] == s[3..];
    assert Single(s[1..]) && Single(s[2..]) && Single(s[3..]);
    assert Trimmed(s[1..]) && Trimmed(s[2..]) && Trimmed(s[3..]);
    DropNewlinesPass(s[3..]);
    var rest := DropNewlines(s[3..]);
    BlankLinesPass(rest);
    var r := BlankLines(s);
    assert r[1..] == "\n" + BlankLines(rest) && r[2..] == BlankLines(rest) && r[1..][1..] == r[2..];
    TwoSpacesBefore(s);
    TwoSpacesBefore(r);
    assert Words(s[2..]) == Words(s[2..][1..]);
  }

  lemma TwoSpacesBefore(s: string)
    requires |s| > 1 && IsSpace(s[0]) && IsSpace(s[1])
    ensures Words(s) == Words(s[2..])
  {
    assert s[1..][1..] == s[2..];
  }

  lemma {:induction false} BlankLinesFixed(s: string)
    requires NoGaps(s)
    ensures BlankLines(s) == s
  {
    if s != "" { BlankLinesFixed(s[1..]); }
  }

  ghost predicate Clean(s: string) {
    Single(s) && Trimmed(s) && NoGaps(s)
  }

  lemma {:induction false} LeftStripPass(s: string)
    requires Clean(s)
    ensures Clean(LeftStrip(s)) && (LeftStrip(s) != "" ==> !IsSpace(LeftStrip(s)[0]))
    ensures Words(LeftStrip(s)) == Words(s)
  {
    if s != "" && IsSpace(s[0]) { LeftStripPass(s[1..]); }
  }

  lemma {:induction false} CleanPrefix(s: string, c: char)
    requires Clean(s + [c]) && IsSpace(c)
    ensures Single(s) && NoGaps(s) && Words(s) == Words(s + [c]) && (s != "" ==> StartsWord(s) == StartsWord(s + [c]))
    ensures c == '\n' ==> Trimmed(s)
    ensures c == '\n'
  {
    var all := s + [c];
    if s == "" {
      assert all == [c] && all[1..] == "";
    } else {
      assert all[1..] == s[1..] + [c];
      CleanPrefix(s[1..], c);
    }
  }

  lemma {:induction false} RightStripPass(s: string)
    requires Clean(s)
    ensures Clean(RightStrip(s)) && (RightStrip(s) != "" ==> !IsSpace(RightStrip(s)[|RightStrip(s)| - 1]))
    ensures Words(RightStrip(s)) == Words(s)
    ensures RightStrip(s) != "" ==> RightStrip(s)[0] == s[0]
  {
    if s != "" && IsSpace(s[|s| - 1]) {
      var before := s[..|s| - 1];
      assert s == before + [s[|s| - 1]];
      CleanPrefix(before, s[|s| - 1]);
      RightStripPass(before);
    }
  }

  lemma {:induction false} CleanMeans(s: string)
    requires Clean(s)
    ensures forall i :: 0 <= i < |s| && IsSpace(s[i]) ==> s[i] == ' ' || s[i] == '\n'
    ensures forall i :: 0 <= i < |s| - 1 && s[i] == ' ' ==> s[i + 1] != ' ' && s[i + 1] != '\n'
    ensures forall i :: 0 <= i < |s| - 2 && s[i] == '\n' && s[i + 1] == '\n' ==> s[i + 2] != '\n'
  {
    if s != "" {
      CleanMeans(s[1..]);
      assert forall i :: 0 < i < |s| ==> s[i] == s[1..][i - 1];
    }
  }

  lemma {:induction false} CanonicalIsClean(s: string)
    requires forall i :: 0 <= i < |s| && IsSpace(s[i]) ==> s[i] == ' ' || s[i] == '\n'
    requires forall i :: 0 <= i < |s| - 1 && s[i] == ' ' ==> s[i + 1] != ' ' && s[i + 1] != '\n'
    requires forall i :: 0 <= i < |s| - 2 && s[i] == '\n' && s[i + 1] == '\n' ==> s[i + 2] != '\n'
    requires s != "" ==> !IsSpace(s[|s| - 1])
    ensures Clean(s)
  {
    if s != "" {
      assert forall i :: 0 <= i < |s| - 1 ==> s[1..][i] == s[i + 1];
      CanonicalIsClean(s[1..]);
    }
  }

  lemma InnerPasses(s: string)
    ensures var r := BlankLines(JoinStripped(Split(Horizontal(LineEndings(s)), '\n'))); Clean(r) && Words(r) == Words(s)
  {
    LineEndingsPass(s);
    var b := Horizontal(LineEndings(s));
    HorizontalPass(LineEndings(s));
    JoinStrippedTrims(b);
    TrimPass(b);
    BlankLinesPass(TrimLines(b));
  }

  lemma OuterPasses(s: string)
    requires Clean(s)
    ensures Canonical(Strip(s)) && Words(Strip(s)) == Words(s)
  {
    LeftStripPass(s);
    RightStripPass(LeftStrip(s));
    CleanMeans(Strip(s));
  }

  /** What the passes compute is canonical and has the words of their input. */
  lemma PassesCanonicalize(s: string)
    ensures Canonical(Passes(s)) && Words(Passes(s)) == Words(s)
  {
    InnerPasses(s);
    OuterPasses(BlankLines(JoinStripped(Split(Horizontal(LineEndings(s)), '\n'))));
  }

  lemma NoReturns(s: string)
    requires forall i :: 0 <= i < |s| && IsSpace(s[i]) ==> s[i] == ' ' || s[i] == '\n'
    ensures '\r' !in s
  {
    forall i | 0 <= i < |s| ensures s[i] != '\r' { assert s[i] == '\r' ==> IsSpace(s[i]); }
  }

  /** On canonical texts they do nothing. */
  lemma CanonicalIsFixed(s: string)
    requires Canonical(s)
    ensures Passes(s) == s
  {
    CanonicalIsClean(s);
    NoReturns(s);
    LineEndingsPass(s);
    SingleIsFixed(s);
    JoinStrippedTrims(s);
    TrimmedIsFixed(s);
    BlankLinesFixed(s);
    StripIsFixed(s);
  }

  lemma StripIsFixed(s: string)
    requires s != "" ==> !IsSpace(s[0]) && !IsSpace(s[|s| - 1])
    ensures Strip(s) == s
  {
  }

  // ---- with NFC ------------------------------------------------------------------------

  /** What is used of NFC. */
  ghost predicate Composes(nfc: string -> string) {
    && (forall s :: Idempotent(nfc, s))
    && (forall u, w, v :: IsSpace(w) ==> Separates(nfc, u, w, v))
    && (forall w :: IsSpace(w) ==> StaysSpace(nfc, w))
    && (forall s :: Spaceless(s) ==> MakesNoSpace(nfc, s))
  }

  ghost predicate Idempotent(nfc: string -> string, s: string) {
    nfc(nfc(s)) == nfc(s)
  }

  /** Whitespace is composed with neither side. */
  ghost predicate Separates(nfc: string -> string, u: string, w: char, v: string) {
    nfc(u + [w] + v) == nfc(u) + [SpaceAfter(nfc, w)] + nfc(v)
  }

  /** A whitespace character becomes one, and no other becomes a space or a line break. */
  ghost predicate StaysSpace(nfc: string -> string, w: char) {
    && IsSpace(SpaceAfter(nfc, w))
    && (w == ' ' || w == '\n' || w == '\r' || SpaceAfter(nfc, w) == '\n' || SpaceAfter(nfc, w) == '\r' ==>
         SpaceAfter(nfc, w) == w)
  }

  ghost predicate MakesNoSpace(nfc: string -> string, s: string) {
    Spaceless(nfc(s)) && (s == "" ==> nfc(s) == "")
  }

  /** The laws are consistent: text that is composed already obeys them. */
  lemma ComposedTextComposes()
    ensures Composes((s: string) => s)
  {
  }

  function SpaceAfter(nfc: string -> string, w: char): char {
    if nfc([w]) == "" then w else nfc([w])[0]
  }

  predicate Spaceless(s: string) {
    forall i :: 0 <= i < |s| ==> !IsSpace(s[i])
  }

  /** The text before the first whitespace. */
  function FirstWord(s: string): (u: string)
    ensures u <= s && Spaceless(u)
    ensures |u| < |s| ==> IsSpace(s[|u|])
  {
    if s == "" || IsSpace(s[0]) then "" else
      var rest := FirstWord(s[1..]);
      assert [s[0]] + rest <= s;
      [s[0]] + rest
  }

  lemma {:induction false} WordsOfSpaceless(s: string)
    requires Spaceless(s)
    ensures Words(s) == if s == "" then [] else [s]
  {
    if s != "" {
      var tail := s[1..];
      assert s == [s[0]] + tail;
      assert forall i :: 0 <= i < |tail| ==> tail[i] == s[i + 1];
      WordsOfSpaceless(tail);
      if tail == "" {
        assert s == [s[0]];
      } else {
        var rest := Words(tail);
        assert StartsWord(tail) && rest == [tail] && rest[1..] == [];
        assert Words(s) == [[s[0]] + tail] + [];
      }
    }
  }

  lemma {:induction false} WordsSplit(u: string, w: char, v: string)
    requires Spaceless(u) && IsSpace(w)
    ensures Words(u + [w] + v) == (if u == "" then [] else [u]) + Words(v)
  {
    var all := u + [w] + v;
    if u == "" {
      assert all[1..] == v && all[0] == w;
    } else {
      assert all[0] == u[0] && all[1..] == u[1..] + [w] + v;
      WordsSplit(u[1..], w, v);
      assert u == [u[0]] + u[1..];
      if u[1..] == "" {
        assert u == [u[0]] && all[1..] == [w] + v && !StartsWord(all[1..]);
      } else {
        assert StartsWord(all[1..]);
        assert Words(all[1..])[1..] == Words(v);
      }
    }
  }

  ghost predicate AllComposed(nfc: string -> string, words: seq<string>) {
    forall i :: 0 <= i < |words| ==> nfc(words[i]) == words[i]
  }

  lemma {:induction false} SameFirstSpace(x: string, y: char, a: string, u: string, w: char, b: string)
    requires Spaceless(x) && IsSpace(y) && Spaceless(u) && IsSpace(w) && x + [y] + a == u + [w] + b
    ensures x == u && y == w && a == b
  {
    var left, right := x + [y] + a, u + [w] + b;
    assert left[0] == right[0];
    if x == "" {
      assert u == "";
      assert left[1..] == a && right[1..] == b;
    } else {
      assert u != "" && x[0] == left[0] && u[0] == right[0];
      assert left[1..] == x[1..] + [y] + a && right[1..] == u[1..] + [w] + b;
      SameFirstSpace(x[1..], y, a, u[1..], w, b);
      assert x == [x[0]] + x[1..] && u == [u[0]] + u[1..];
    }
  }

  lemma ComposedAround(nfc: string -> string, u: string, w: char, v: string)
    requires Composes(nfc) && Spaceless(u) && IsSpace(w) && nfc(u + [w] + v) == u + [w] + v
    ensures nfc(u) == u && nfc(v) == v
  {
    assert Separates(nfc, u, w, v) && StaysSpace(nfc, w) && MakesNoSpace(nfc, u);
    SameFirstSpace(nfc(u), SpaceAfter(nfc, w), nfc(v), u, w, v);
  }

  /** A text and its first whitespace, if it has one. */
  lemma FirstSpace(s: string) returns (u: string, v: string)
    ensures Spaceless(u)
    ensures Spaceless(s) ==> u == s && Words(s) == if s == "" then [] else [s]
    ensures !Spaceless(s) ==>
              && |u| < |s| && IsSpace(s[|u|]) && s == u + [s[|u|]] + v
              && Words(s) == (if u == "" then [] else [u]) + Words(v)
  {
    u := FirstWord(s);
    if |u| == |s| {
      assert u == s;
      v := "";
      WordsOfSpaceless(s);
    } else {
      v := s[|u| + 1..];
      assert s == u + [s[|u|]] + v;
      WordsSplit(u, s[|u|], v);
    }
  }

  /** A composed text is composed word by word ... */
  lemma {:induction false} WordsAreComposed(nfc: string -> string, s: string)
    requires Composes(nfc) && nfc(s) == s
    ensures AllComposed(nfc, Words(s))
    decreases |s|
  {
    var u, v := FirstSpace(s);
    if Spaceless(s) {
      FirstComposed(nfc, u, []);
      assert (if u == "" then [] else [u]) + [] == Words(s);
    } else {
      ComposedAround(nfc, u, s[|u|], v);
      WordsAreComposed(nfc, v);
      FirstComposed(nfc, u, Words(v));
    }
  }

  lemma FirstComposed(nfc: string -> string, u: string, words: seq<string>)
    requires nfc(u) == u && AllComposed(nfc, words)
    ensures AllComposed(nfc, (if u == "" then [] else [u]) + words)
  {
  }

  predicate PlainSpaces(s: string) {
    forall i :: 0 <= i < |s| && IsSpace(s[i]) ==> s[i] == ' ' || s[i] == '\n'
  }

  lemma PlainSpacesAfter(u: string, w: char, v: string)
    requires PlainSpaces(u + [w] + v)
    ensures PlainSpaces(v) && (IsSpace(w) ==> w == ' ' || w == '\n')
  {
    var s := u + [w] + v;
    assert s[|u|] == w && forall i :: 0 <= i < |v| ==> v[i] == s[|u| + 1 + i];
  }

  /** ... and the other way round, when its whitespace is spaces and newlines. */
  lemma {:induction false} WordsCompose(nfc: string -> string, s: string)
    requires Composes(nfc) && AllComposed(nfc, Words(s)) && PlainSpaces(s)
    ensures nfc(s) == s
    decreases |s|
  {
    var u, v := FirstSpace(s);
    if Spaceless(s) {
      assert MakesNoSpace(nfc, s);
      if s != "" {
        assert Words(s) == [s] && [s][0] == s;
        ComposedSplit(nfc, s, []);
      }
    } else {
      ComposedSplit(nfc, u, Words(v));
      PlainSpacesAfter(u, s[|u|], v);
      WordsCompose(nfc, v);
      ComposedJoin(nfc, u, s[|u|], v);
    }
  }

  lemma ComposedSplit(nfc: string -> string, u: string, words: seq<string>)
    requires AllComposed(nfc, (if u == "" then [] else [u]) + words)
    ensures AllComposed(nfc, words) && (u != "" ==> nfc(u) == u)
  {
    var all := (if u == "" then [] else [u]) + words;
    assert forall i :: 0 <= i < |words| ==> words[i] == all[|all| - |words| + i];
    assert u != "" ==> all[0] == u;
  }

  lemma ComposedJoin(nfc: string -> string, u: string, w: char, v: string)
    requires Composes(nfc) && Spaceless(u) && (u != "" ==> nfc(u) == u) && (w == ' ' || w == '\n') && nfc(v) == v
    ensures nfc(u + [w] + v) == u + [w] + v
  {
    assert Separates(nfc, u, w, v) && StaysSpace(nfc, w) && MakesNoSpace(nfc, u);
  }

  /** The normalized text is canonical and composed, and has exactly the words of the
      composed input: nothing but whitespace is lost, changed or moved. */
  lemma NormalizedIsCanonical(nfc: string -> string, text: string)
    requires Composes(nfc)
    ensures var r := NormalizeText(nfc, text);
            Canonical(r) && nfc(r) == r && Words(r) == Words(nfc(text))
  {
    PassesCanonicalize(nfc(text));
    assert Idempotent(nfc, text);
    WordsAreComposed(nfc, nfc(text));
    WordsCompose(nfc, NormalizeText(nfc, text));
  }

  /** Canonical composed texts are exactly the fixed points, and exactly the image. */
  lemma ImageIsCanonical(nfc: string -> string, s: string)
    requires Composes(nfc)
    ensures Canonical(s) && nfc(s) == s <==> NormalizeText(nfc, s) == s
    ensures Canonical(s) && nfc(s) == s <==> exists text :: NormalizeText(nfc, text) == s
  {
    if Canonical(s) && nfc(s) == s { CanonicalIsFixed(s); }
    if text :| NormalizeText(nfc, text) == s { NormalizedIsCanonical(nfc, text); }
  }

  /** Normalizing twice is normalizing once, so a stored hash can be recomputed. */
  lemma NormalizeIsIdempotent(nfc: string -> string, text: string)
    requires Composes(nfc)
    ensures NormalizeText(nfc, NormalizeText(nfc, text)) == NormalizeText(nfc, text)
  {
    NormalizedIsCanonical(nfc, text);
    CanonicalIsFixed(NormalizeText(nfc, text));
  }

  // ---- line endings ----------------------------------------------------------------------

  /** The text with every line break written as `eol`. */
  function WithLineBreaks(s: string, eol: string): string {
    if s == "" then "" else (if s[0] == '\n' then eol else [s[0]]) + WithLineBreaks(s[1..], eol)
  }

  lemma {:induction false} LineBreaksComeBack(s: string, eol: string)
    requires '\r' !in s && (eol == "\r" || eol == "\r\n")
    ensures LineEndings(WithLineBreaks(s, eol)) == s
    ensures s != "" && s[0] != '\n' ==> WithLineBreaks(s, eol) != "" && WithLineBreaks(s, eol)[0] == s[0]
    ensures WithLineBreaks(s, eol) != "" ==> WithLineBreaks(s, eol)[0] != '\n'
  {
    if s != "" {
      var rest := WithLineBreaks(s[1..], eol);
      assert s[0] in s && forall c :: c in s[1..] ==> c in s;
      LineBreaksComeBack(s[1..], eol);
      var all := WithLineBreaks(s, eol);
      if s[0] != '\n' {
        assert all[1..] == rest;
      } else if eol == "\r" {
        assert all[1..] == rest;
      } else {
        assert all[2..] == rest;
      }
    }
  }

  lemma {:induction false} BreaksConcat(s: string, t: string, eol: string)
    ensures WithLineBreaks(s + t, eol) == WithLineBreaks(s, eol) + WithLineBreaks(t, eol)
  {
    if s == "" {
      assert s + t == t;
    } else {
      assert (s + t)[1..] == s[1..] + t;
      BreaksConcat(s[1..], t, eol);
    }
  }

  lemma {:induction false} NoBreaks(s: string, eol: string)
    requires '\n' !in s
    ensures WithLineBreaks(s, eol) == s
  {
    if s != "" {
      assert s[0] in s && forall c :: c in s[1..] ==> c in s;
      NoBreaks(s[1..], eol);
    }
  }

  lemma NoBreaksAround(u: string, w: char, v: string, eol: string)
    requires Spaceless(u)
    ensures WithLineBreaks(u + [w] + v, eol) == u + (if w == '\n' then eol else [w]) + WithLineBreaks(v, eol)
  {
    assert '\n' !in u;
    NoBreaks(u, eol);
    BreaksConcat(u + [w], v, eol);
    BreaksConcat(u, [w], eol);
    assert [w][1..] == "";
  }

  /** Composition goes past line breaks, however they are written. */
  lemma {:induction false} ComposeAcrossBreaks(nfc: string -> string, s: string, eol: string)
    requires Composes(nfc) && '\r' !in s && (eol == "\r" || eol == "\r\n")
    ensures nfc(WithLineBreaks(s, eol)) == WithLineBreaks(nfc(s), eol) && '\r' !in nfc(s)
    decreases |s|
  {
    var u, v := FirstSpace(s);
    assert MakesNoSpace(nfc, u);
    if Spaceless(s) {
      assert '\n' !in s && '\n' !in nfc(s);
      NoBreaks(s, eol);
      NoBreaks(nfc(s), eol);
    } else {
      var w := s[|u|];
      assert w in s && forall c :: c in v ==> c in s;
      ComposeAcrossBreaks(nfc, v, eol);
      NoBreaksAround(u, w, v, eol);
      ComposeAcrossOne(nfc, u, w, v, eol);
    }
  }

  lemma ComposeAcrossOne(nfc: string -> string, u: string, w: char, v: string, eol: string)
    requires Composes(nfc) && Spaceless(u) && IsSpace(w) && w != '\r' && (eol == "\r" || eol == "\r\n")
    requires nfc(WithLineBreaks(v, eol)) == WithLineBreaks(nfc(v), eol) && '\r' !in nfc(v)
    ensures nfc(u + (if w == '\n' then eol else [w]) + WithLineBreaks(v, eol)) == WithLineBreaks(nfc(u + [w] + v), eol)
    ensures '\r' !in nfc(u + [w] + v)
  {
    var rest := WithLineBreaks(v, eol);
    assert Separates(nfc, u, w, v) && StaysSpace(nfc, w) && MakesNoSpace(nfc, u);
    NoBreaksAround(nfc(u), SpaceAfter(nfc, w), nfc(v), eol);
    if w != '\n' {
      assert Separates(nfc, u, w, rest);
    } else if eol == "\r" {
      assert Separates(nfc, u, '\r', rest) && StaysSpace(nfc, '\r');
    } else {
      ComposeAcrossCrlf(nfc, u, rest);
    }
  }

  lemma ComposeAcrossCrlf(nfc: string -> string, u: string, rest: string)
    requires Composes(nfc)
    ensures nfc(u + "\r\n" + rest) == nfc(u) + "\r\n" + nfc(rest)
  {
    assert Separates(nfc, u, '\r', "\n" + rest) && StaysSpace(nfc, '\r');
    assert Separates(nfc, "", '\n', rest) && StaysSpace(nfc, '\n') && MakesNoSpace(nfc, "");
    assert u + "\r\n" + rest == u + ['\r'] + ("\n" + rest);
    assert "" + ['\n'] + rest == "\n" + rest;
  }

  /** Texts that differ only in how their lines end have the same normal form. */
  lemma LineEndingsDoNotMatter(nfc: string -> string, text: string, eol: string)
    requires Composes(nfc) && '\r' !in text && (eol == "\r" || eol == "\r\n")
    ensures NormalizeText(nfc, WithLineBreaks(text, eol)) == NormalizeText(nfc, text)
  {
    ComposeAcrossBreaks(nfc, text, eol);
    LineBreaksComeBack(nfc(text), eol);
    LineEndingsPass(nfc(text));
  }
}
