/** What `normalize_text` makes of a text as a whole (app/services/normalization.py:20-38):
    the words stay, and each gap between two of them becomes one of five. */
module NormalForm {
  import opened Normalization

  predicate Blank(s: string) {
    forall i :: 0 <= i < |s| ==> IsSpace(s[i])
  }

  predicate IsWord(s: string) {
    s != "" && Spaceless(s)
  }

  predicate IsGap(s: string) {
    s != "" && Blank(s)
  }

  function Breaks(s: string): nat {
    if s == "" then 0 else (if s[0] == '\n' then 1 else 0) + Breaks(s[1..])
  }

  /** What a gap becomes: a space if it breaks no line, else one line break or two, with a
      space after them exactly if the last line of the gap is not empty. */
  function Tidy(gap: string): string {
    var g := LineEndings(gap);
    if Breaks(g) == 0 then " " else Newlines(if Breaks(g) == 1 then 1 else 2) + Indent(g)
  }

  function Indent(g: string): string {
    if g == "" || g[|g| - 1] == '\n' then "" else " "
  }

  function Newlines(n: nat): (s: string)
    ensures |s| == n && forall i :: 0 <= i < n ==> s[i] == '\n'
  {
    if n == 0 then "" else "\n" + Newlines(n - 1)
  }

  /** Words with gaps between them. */
  function Woven(words: seq<string>, gaps: seq<string>): string
    requires |words| == |gaps| + 1
  {
    if gaps == [] then words[0] else words[0] + gaps[0] + Woven(words[1..], gaps[1..])
  }

  function Tidied(gaps: seq<string>): (r: seq<string>)
    ensures |r| == |gaps| && forall i :: 0 <= i < |gaps| ==> r[i] == Tidy(gaps[i])
  {
    if gaps == [] then [] else [Tidy(gaps[0])] + Tidied(gaps[1..])
  }

  // ---- pass by pass ------------------------------------------------------------------

  function Inner(s: string): string {
    BlankLines(TrimLines(Horizontal(LineEndings(s))))
  }

  lemma PassesStripInner(s: string)
    ensures Passes(s) == Strip(Inner(s))
  {
    JoinStrippedTrims(Horizontal(LineEndings(s)));
  }

  lemma CharacterStays(c: char, s: string)
    requires !IsSpace(c)
    ensures LineEndings([c] + s) == [c] + LineEndings(s)
    ensures Horizontal([c] + s) == [c] + Horizontal(s)
    ensures TrimLines([c] + s) == [c] + TrimLines(s)
    ensures BlankLines([c] + s) == [c] + BlankLines(s)
  {
    assert ([c] + s)[1..] == s;
  }

  lemma Headed(u: string, s: string)
    requires u != ""
    ensures u + s == [u[0]] + (u[1..] + s)
  {
  }

  /** No pass changes a word ... */
  lemma {:induction false} WordStays(u: string, s: string)
    requires Spaceless(u)
    ensures LineEndings(u + s) == u + LineEndings(s)
    ensures Horizontal(u + s) == u + Horizontal(s)
    ensures TrimLines(u + s) == u + TrimLines(s)
    ensures BlankLines(u + s) == u + BlankLines(s)
  {
    if u == "" {
      assert u + s == s;
    } else {
      WordStays(u[1..], s);
      CharacterStays(u[0], u[1..] + s);
      Headed(u, s);
      Headed(u, LineEndings(s));
      Headed(u, Horizontal(s));
      Headed(u, TrimLines(s));
      Headed(u, BlankLines(s));
    }
  }

  lemma InnerKeepsWord(u: string, s: string)
    requires Spaceless(u)
    ensures Inner(u + s) == u + Inner(s)
  {
    WordStays(u, s);
    WordStays(u, LineEndings(s));
    WordStays(u, Horizontal(LineEndings(s)));
    WordStays(u, TrimLines(Horizontal(LineEndings(s))));
  }

  lemma LineEndingsStep(s: string, n: nat)
    requires s != "" && n == if |s| > 1 && s[0] == '\r' && s[1] == '\n' then 2 else 1
    ensures LineEndings(s) == [if s[0] == '\r' then '\n' else s[0]] + LineEndings(s[n..])
  {
  }

  /** ... and what a word starts stays apart from the gap before it. */
  lemma LineEndingsAlong(g: string, v: string, n: nat)
    requires g != "" && n == (if |g| > 1 && g[0] == '\r' && g[1] == '\n' then 2 else 1) && StartsWord(v)
    ensures LineEndings(g + v) == [if g[0] == '\r' then '\n' else g[0]] + LineEndings(g[n..] + v)
  {
    assert (g + v)[n..] == g[n..] + v && (g + v)[0] == g[0];
    LineEndingsStep(g + v, n);
  }

  lemma Along(a: string, b: string, c: string)
    ensures a + (b + c) == a + b + c
  {
  }

  lemma LineEndingsPrefix(g: string, v: string, n: nat)
    requires g != "" && n == (if |g| > 1 && g[0] == '\r' && g[1] == '\n' then 2 else 1) && StartsWord(v)
    requires LineEndings(g[n..] + v) == LineEndings(g[n..]) + LineEndings(v)
    ensures LineEndings(g + v) == LineEndings(g) + LineEndings(v)
  {
    LineEndingsAlong(g, v, n);
    LineEndingsStep(g, n);
    Along([if g[0] == '\r' then '\n' else g[0]], LineEndings(g[n..]), LineEndings(v));
  }

  lemma {:induction false} LineEndingsOfGap(g: string, v: string)
    requires StartsWord(v)
    ensures LineEndings(g + v) == LineEndings(g) + LineEndings(v)
    decreases |g|
  {
    if g == "" {
      NothingBefore(g, v, LineEndings(v));
    } else {
      var n := if |g| > 1 && g[0] == '\r' && g[1] == '\n' then 2 else 1;
      LineEndingsOfGap(g[n..], v);
      LineEndingsPrefix(g, v, n);
    }
  }

  lemma NothingBefore(g: string, v: string, w: string)
    requires g == ""
    ensures g + v == v && g + w == w
  {
  }

  lemma {:induction false} LineEndingsStayBlank(g: string)
    requires IsGap(g)
    ensures IsGap(LineEndings(g))
    decreases |g|
  {
    var n := if |g| > 1 && g[0] == '\r' && g[1] == '\n' then 2 else 1;
    LineEndingsStep(g, n);
    if |g| > n { LineEndingsStayBlank(g[n..]); }
  }

  lemma {:induction false} HorizontalOfGap(g: string, v: string)
    requires Blank(g) && StartsWord(v)
    ensures Horizontal(g + v) == Horizontal(g) + Horizontal(v)
    decreases |g|
  {
    if g == "" {
      assert g + v == v;
    } else {
      DropInGap(g[1..]);
      var rest := if IsHorizontal(g[0]) then DropHorizontal(g[1..]) else g[1..];
      var c := [if IsHorizontal(g[0]) then ' ' else g[0]];
      HorizontalOfGap(rest, v);
      calc {
        Horizontal(g + v);
        { HorizontalAlong(g, v); }
        c + Horizontal(rest + v);
        c + (Horizontal(rest) + Horizontal(v));
        { Along(c, Horizontal(rest), Horizontal(v)); }
        c + Horizontal(rest) + Horizontal(v);
        { HorizontalStep(g); }
        Horizontal(g) + Horizontal(v);
      }
    }
  }

  lemma HorizontalStep(s: string)
    requires s != ""
    ensures Horizontal(s) ==
            if IsHorizontal(s[0]) then " " + Horizontal(DropHorizontal(s[1..])) else [s[0]] + Horizontal(s[1..])
  {
  }

  lemma HorizontalAlong(g: string, v: string)
    requires g != "" && StartsWord(v)
    ensures Horizontal(g + v) ==
            if IsHorizontal(g[0]) then " " + Horizontal(DropHorizontal(g[1..]) + v) else [g[0]] + Horizontal(g[1..] + v)
  {
    assert (g + v)[1..] == g[1..] + v && (g + v)[0] == g[0];
    HorizontalStep(g + v);
    DropBefore(g[1..], v);
  }

  lemma {:induction false} DropBefore(g: string, v: string)
    requires StartsWord(v)
    ensures DropHorizontal(g + v) == DropHorizontal(g) + v
  {
    if g == "" {
      assert g + v == v;
    } else {
      assert (g + v)[1..] == g[1..] + v;
      if IsHorizontal(g[0]) { DropBefore(g[1..], v); }
    }
  }

  lemma {:induction false} DropInGap(g: string)
    requires Blank(g)
    ensures var rest := DropHorizontal(g);
            && Blank(rest) && Breaks(rest) == Breaks(g)
            && if rest == "" then Breaks(g) == 0 && (g == "" || IsHorizontal(g[|g| - 1]))
               else rest[0] == '\n' && Indent(rest) == Indent(g)
  {
    if g != "" && IsHorizontal(g[0]) { DropInGap(g[1..]); }
  }

  /** Trimming a gap before a word. */
  function Kept(g: string): string {
    if g == "" then ""
    else
      var rest := Kept(g[1..]);
      if IsHorizontal(g[0]) && rest != "" && rest[0] == '\n' then rest else [g[0]] + rest
  }

  lemma {:induction false} TrimOfGap(g: string, v: string)
    requires StartsWord(v)
    ensures TrimLines(g + v) == Kept(g) + TrimLines(v)
  {
    if g == "" {
      assert g + v == v;
    } else {
      assert (g + v)[1..] == g[1..] + v;
      TrimOfGap(g[1..], v);
    }
  }

  lemma {:induction false} KeptOfGap(g: string)
    requires Blank(g)
    ensures Kept(Horizontal(g)) == Newlines(Breaks(g)) + Indent(g)
    decreases |g|
  {
    if g != "" {
      if IsHorizontal(g[0]) {
        var rest := DropHorizontal(g[1..]);
        DropInGap(g[1..]);
        KeptOfGap(rest);
        HorizontalStep(g);
        KeptAfterSpace(rest);
      } else {
        KeptOfGap(g[1..]);
        LineAlone(Horizontal(g[1..]));
        IndentOf('\n', g[1..]);
        Along("\n", Newlines(Breaks(g[1..])), Indent(g[1..]));
      }
    }
  }

  lemma KeptAfterSpace(rest: string)
    requires rest == "" || rest[0] == '\n'
    requires Kept(Horizontal(rest)) == Newlines(Breaks(rest)) + Indent(rest)
    ensures Kept(" " + Horizontal(rest)) == Newlines(Breaks(rest)) + if rest == "" then " " else Indent(rest)
  {
    SpaceOrNot(Horizontal(rest));
    if rest != "" { assert Kept(Horizontal(rest))[0] == '\n'; }
  }

  lemma SpaceOrNot(s: string)
    ensures Kept(" " + s) == (if Kept(s) != "" && Kept(s)[0] == '\n' then Kept(s) else " " + Kept(s))
  {
    assert (" " + s)[1..] == s;
  }

  lemma LineAlone(s: string)
    ensures Kept("\n" + s) == "\n" + Kept(s)
  {
    assert ("\n" + s)[1..] == s;
  }

  lemma IndentOf(c: char, s: string)
    ensures Indent([c] + s) == if s != "" then Indent(s) else if c == '\n' then "" else " "
  {
  }

  lemma {:induction false} DropNewlinesOfGap(n: nat, s: string)
    requires s == "" || s[0] != '\n'
    ensures DropNewlines(Newlines(n) + s) == s
  {
    var all := Newlines(n) + s;
    if n == 0 {
      assert all == s;
    } else {
      assert all[1..] == Newlines(n - 1) + s;
      DropNewlinesOfGap(n - 1, s);
    }
  }

  lemma FewNewlines(s: string)
    ensures Newlines(0) + s == s && Newlines(1) + s == "\n" + s && Newlines(2) + s == "\n" + ("\n" + s)
  {
  }

  lemma OneLineStays(s: string)
    requires !ThreeNewlines("\n" + s)
    ensures BlankLines("\n" + s) == "\n" + BlankLines(s)
  {
    assert ("\n" + s)[1..] == s;
  }

  lemma TwoLinesStay(s: string)
    requires s != "" && s[0] != '\n'
    ensures BlankLines("\n" + ("\n" + s)) == "\n" + ("\n" + BlankLines(s))
  {
    OneLineStays(s);
    OneLineStays("\n" + s);
  }

  lemma ThreeLinesShrink(s: string)
    requires ThreeNewlines(s)
    ensures BlankLines(s) == "\n" + ("\n" + BlankLines(DropNewlines(s[3..])))
  {
  }

  lemma BlankLinesOfGap(n: nat, s: string)
    requires s != "" && s[0] != '\n'
    ensures BlankLines(Newlines(n) + s) == Newlines(if n <= 2 then n else 2) + BlankLines(s)
  {
    FewNewlines(s);
    FewNewlines(BlankLines(s));
    if n == 1 {
      OneLineStays(s);
    } else if n == 2 {
      TwoLinesStay(s);
    } else if n > 2 {
      assert (Newlines(n) + s)[3..] == Newlines(n - 3) + s;
      DropNewlinesOfGap(n - 3, s);
      ThreeLinesShrink(Newlines(n) + s);
    }
  }

  lemma IndentStays(tail: string, v: string)
    requires StartsWord(v) && (tail == "" || tail == " ")
    ensures BlankLines(tail + v) == tail + BlankLines(v)
  {
    assert tail + v == v || (tail + v)[1..] == v;
  }

  lemma LinesOfGap(n: nat, tail: string, v: string)
    requires StartsWord(v) && (tail == "" || tail == " ")
    ensures BlankLines(Newlines(n) + tail + v) == Newlines(if n <= 2 then n else 2) + tail + BlankLines(v)
  {
    assert Newlines(n) + tail + v == Newlines(n) + (tail + v);
    BlankLinesOfGap(n, tail + v);
    IndentStays(tail, v);
  }

  lemma TidyMeans(g: string)
    requires IsGap(g) && IsGap(LineEndings(g))
    ensures var n := Breaks(LineEndings(g)); Tidy(g) == Newlines(if n <= 2 then n else 2) + Indent(LineEndings(g))
  {
    NoBreakNoNewline(LineEndings(g));
  }

  /** A gap before a word becomes what `Tidy` says, whatever comes after. */
  lemma InnerTidiesGap(g: string, v: string)
    requires IsGap(g) && StartsWord(v)
    ensures Inner(g + v) == Tidy(g) + Inner(v)
  {
    var g1, v1 := LineEndings(g), LineEndings(v);
    LineEndingsOfGap(g, v);
    LineEndingsStayBlank(g);
    LineEndingsPass(g);
    LineEndingsPass(v);
    HorizontalOfGap(g1, v1);
    HorizontalPass(v1);
    var v2 := Horizontal(v1);
    TrimOfGap(Horizontal(g1), v2);
    KeptOfGap(g1);
    TrimPass(v2);
    LinesOfGap(Breaks(g1), Indent(g1), TrimLines(v2));
    TidyMeans(g);
  }

  lemma {:induction false} NoBreakNoNewline(g: string)
    ensures Breaks(g) == 0 ==> '\n' !in g
  {
    if g != "" { NoBreakNoNewline(g[1..]); }
  }

  // ---- the whole text ----------------------------------------------------------------

  ghost predicate Weaves(words: seq<string>, gaps: seq<string>) {
    && |words| == |gaps| + 1
    && (forall i :: 0 <= i < |words| ==> IsWord(words[i]))
    && (forall i :: 0 <= i < |gaps| ==> IsGap(gaps[i]))
  }

  lemma InnerStep(u: string, g: string, v: string)
    requires IsWord(u) && IsGap(g) && StartsWord(v)
    ensures Inner(u + g + v) == u + Tidy(g) + Inner(v)
  {
    assert u + g + v == u + (g + v);
    InnerKeepsWord(u, g + v);
    InnerTidiesGap(g, v);
  }

  lemma Regroup(u: string, g: string, v: string, tail: string)
    ensures u + g + v + tail == u + g + (v + tail)
  {
  }

  lemma {:induction false} WovenEnds(words: seq<string>, gaps: seq<string>)
    requires |words| == |gaps| + 1 && forall i :: 0 <= i < |words| ==> IsWord(words[i])
    ensures StartsWord(Woven(words, gaps)) && EndsWord(Woven(words, gaps))
  {
    if gaps != [] { WovenEnds(words[1..], gaps[1..]); }
  }

  lemma {:induction false} InnerOfWoven(words: seq<string>, gaps: seq<string>, tail: string)
    requires Weaves(words, gaps)
    ensures Inner(Woven(words, gaps) + tail) == Woven(words, Tidied(gaps)) + Inner(tail)
  {
    if gaps == [] {
      InnerKeepsWord(words[0], tail);
    } else {
      var rest := Woven(words[1..], gaps[1..]);
      InnerOfWoven(words[1..], gaps[1..], tail);
      WovenEnds(words[1..], gaps[1..]);
      InnerStep(words[0], gaps[0], rest + tail);
      assert Tidied(gaps)[1..] == Tidied(gaps[1..]);
      Regroup(words[0], gaps[0], rest, tail);
      Regroup(words[0], Tidy(gaps[0]), Woven(words[1..], Tidied(gaps[1..])), Inner(tail));
    }
  }

  predicate EndsWord(s: string) {
    s != "" && !IsSpace(s[|s| - 1])
  }

  lemma {:induction false} NoWordsIsBlank(s: string)
    ensures Words(s) == [] <==> Blank(s)
  {
    if s != "" {
      NoWordsIsBlank(s[1..]);
      assert Blank(s) <==> IsSpace(s[0]) && Blank(s[1..]) by {
        assert s == [s[0]] + s[1..];
      }
    }
  }

  lemma InnerOfBlank(s: string)
    requires Blank(s)
    ensures Blank(Inner(s))
  {
    JoinStrippedTrims(Horizontal(LineEndings(s)));
    InnerPasses(s);
    NoWordsIsBlank(s);
    NoWordsIsBlank(Inner(s));
  }

  lemma {:induction false} LeftStripOf(lead: string, s: string)
    requires Blank(lead) && (s == "" || StartsWord(s))
    ensures LeftStrip(lead + s) == s
  {
    if lead == "" {
      assert lead + s == s;
    } else {
      assert (lead + s)[1..] == lead[1..] + s;
      LeftStripOf(lead[1..], s);
    }
  }

  lemma {:induction false} RightStripOf(s: string, trail: string)
    requires Blank(trail) && (s == "" || EndsWord(s))
    ensures RightStrip(s + trail) == s
    decreases |trail|
  {
    var all := s + trail;
    if trail == "" {
      assert all == s;
    } else {
      assert all[..|all| - 1] == s + trail[..|trail| - 1];
      RightStripOf(s, trail[..|trail| - 1]);
    }
  }

  lemma BlankTidy(g: string)
    requires IsGap(g)
    ensures Blank(Tidy(g))
  {
  }

  lemma InnerOfLead(lead: string, v: string) returns (l: string)
    requires Blank(lead) && StartsWord(v)
    ensures Blank(l) && Inner(lead + v) == l + Inner(v)
  {
    if lead == "" {
      l := "";
      assert lead + v == v && l + Inner(v) == Inner(v);
    } else {
      l := Tidy(lead);
      InnerTidiesGap(lead, v);
      BlankTidy(lead);
    }
  }

  lemma StripOf(lead: string, s: string, trail: string)
    requires Blank(lead) && StartsWord(s) && EndsWord(s) && Blank(trail)
    ensures Strip(lead + (s + trail)) == s
  {
    LeftStripOf(lead, s + trail);
    RightStripOf(s, trail);
  }

  /** Words stay, each gap between them is tidied, and what stands around them goes. */
  lemma PassesTidyGaps(lead: string, words: seq<string>, gaps: seq<string>, trail: string)
    requires Weaves(words, gaps) && Blank(lead) && Blank(trail)
    ensures Passes(lead + Woven(words, gaps) + trail) == Woven(words, Tidied(gaps))
  {
    var text := Woven(words, gaps);
    WovenEnds(words, gaps);
    WovenEnds(words, Tidied(gaps));
    InnerOfWoven(words, gaps, trail);
    InnerOfBlank(trail);
    var l := InnerOfLead(lead, text + trail);
    StripOf(l, Woven(words, Tidied(gaps)), Inner(trail));
    Along(lead, text, trail);
    PassesStripInner(lead + (text + trail));
  }

  lemma PassesOfBlank(s: string)
    requires Blank(s)
    ensures Passes(s) == ""
  {
    PassesStripInner(s);
    InnerOfBlank(s);
    assert Inner(s) + "" == Inner(s);
    LeftStripOf(Inner(s), "");
  }

  /** Every text is blank or made of words and gaps in this way. */
  lemma {:induction false} EveryTextIsWoven(s: string)
      returns (lead: string, words: seq<string>, gaps: seq<string>, trail: string)
    ensures Blank(lead) && Blank(trail)
    ensures Blank(s) || (Weaves(words, gaps) && s == lead + Woven(words, gaps) + trail)
    ensures StartsWord(s) ==> lead == ""
    decreases |s|
  {
    lead, words, gaps, trail := "", [], [], "";
    if !Blank(s) {
      if IsSpace(s[0]) {
        lead, words, gaps, trail := EveryTextIsWoven(s[1..]);
        MoreLead(s, lead, Woven(words, gaps), trail);
        lead := [s[0]] + lead;
      } else {
        var u := FirstWord(s);
        var rest := s[|u|..];
        if Blank(rest) {
          words, trail := [u], rest;
        } else {
          var l, w, g, t := EveryTextIsWoven(rest);
          words, gaps, trail := [u] + w, [l] + g, t;
          Stitched(u, l, w, g);
          MoreWords(u, l, Woven(w, g), t);
        }
      }
    }
  }

  lemma MoreLead(s: string, lead: string, text: string, trail: string)
    requires s != "" && IsSpace(s[0]) && Blank(lead) && s[1..] == lead + text + trail
    ensures Blank([s[0]] + lead) && s == [s[0]] + lead + text + trail
  {
    assert s == [s[0]] + s[1..];
  }

  lemma MoreWords(u: string, l: string, text: string, trail: string)
    ensures u + (l + text + trail) == "" + (u + l + text) + trail
  {
  }

  lemma Stitched(u: string, l: string, words: seq<string>, gaps: seq<string>)
    requires IsWord(u) && IsGap(l) && Weaves(words, gaps)
    ensures Weaves([u] + words, [l] + gaps) && Woven([u] + words, [l] + gaps) == u + l + Woven(words, gaps)
  {
    assert ([u] + words)[1..] == words && ([l] + gaps)[1..] == gaps;
  }

  /** So a text is normalized by tidying the gaps of the composed text. */
  lemma NormalizedIsTidied(nfc: string -> string, text: string)
      returns (lead: string, words: seq<string>, gaps: seq<string>, trail: string)
    ensures Blank(lead) && Blank(trail)
    ensures if Blank(nfc(text)) then NormalizeText(nfc, text) == "" else
              && Weaves(words, gaps)
              && nfc(text) == lead + Woven(words, gaps) + trail
              && NormalizeText(nfc, text) == Woven(words, Tidied(gaps))
  {
    lead, words, gaps, trail := EveryTextIsWoven(nfc(text));
    if Blank(nfc(text)) {
      PassesOfBlank(nfc(text));
    } else {
      PassesTidyGaps(lead, words, gaps, trail);
    }
  }
}
