/** What several components do with sequences: cut at a separator, put the pieces
    together again, keep first occurrences, flatten. */
module Lists {

  // ---- cutting -------------------------------------------------------------------

  function Split(s: string, at: char): (parts: seq<string>)
    ensures parts != []
  {
    if s == "" then [""]
    else if s[0] == at then [""] + Split(s[1..], at)
    else
      var rest := Split(s[1..], at);
      [[s[0]] + rest[0]] + rest[1..]
  }

  function Join(parts: seq<string>, at: char): string {
    if parts == [] then "" else if |parts| == 1 then parts[0] else parts[0] + [at] + Join(parts[1..], at)
  }

  lemma {:induction false} JoinSnoc(parts: seq<string>, last: string, at: char)
    requires parts != []
    ensures Join(parts + [last], at) == Join(parts, at) + [at] + last
  {
    assert (parts + [last])[1..] == parts[1..] + [last];
    if |parts| > 1 { JoinSnoc(parts[1..], last, at); }
  }

  lemma {:induction false} SplitJoins(s: string, at: char)
    ensures Join(Split(s, at), at) == s
  {
    if s != "" {
      SplitJoins(s[1..], at);
      var rest := Split(s[1..], at);
      if s[0] == at {
        assert ([""] + rest)[1..] == rest;
      } else {
        assert ([[s[0]] + rest[0]] + rest[1..])[1..] == rest[1..];
      }
    }
  }

  lemma {:induction false} SplitLeavesNoSeparator(s: string, at: char)
    ensures forall p :: p in Split(s, at) ==> at !in p
  {
    if s != "" {
      SplitLeavesNoSeparator(s[1..], at);
      var rest := Split(s[1..], at);
      assert rest[0] in rest && forall p :: p in rest[1..] ==> p in rest;
    }
  }

  lemma {:induction false} SplitFirst(head: string, at: char, tail: string)
    requires at !in head
    ensures Split(head + [at] + tail, at) == [head] + Split(tail, at)
    ensures Split(head, at) == [head]
  {
    var text := head + [at] + tail;
    if head == "" {
      assert text[1..] == tail;
    } else {
      assert head == [head[0]] + head[1..] && text[1..] == head[1..] + [at] + tail;
      assert head[0] in head && forall c :: c in head[1..] ==> c in head;
      SplitFirst(head[1..], at, tail);
      assert ([head[1..]] + Split(tail, at))[1..] == Split(tail, at);
    }
  }

  lemma {:induction false} JoinedPartsComeBack(parts: seq<string>, at: char)
    requires parts != [] && forall p :: p in parts ==> at !in p
    ensures Split(Join(parts, at), at) == parts
  {
    if |parts| == 1 {
      SplitFirst(parts[0], at, "");
    } else {
      JoinedPartsComeBack(parts[1..], at);
      SplitFirst(parts[0], at, Join(parts[1..], at));
    }
  }

  /** The parts are the one way to cut the text at its separators. */
  lemma SplitCutsTheText(s: string, at: char, parts: seq<string>)
    requires parts != []
    ensures parts == Split(s, at) <==> Join(parts, at) == s && forall p :: p in parts ==> at !in p
  {
    SplitJoins(s, at);
    SplitLeavesNoSeparator(s, at);
    if forall p :: p in parts ==> at !in p { JoinedPartsComeBack(parts, at); }
  }

  // ---- first occurrences ---------------------------------------------------------

  function Once<T(==)>(items: seq<T>): seq<T> {
    if items == [] then []
    else
      var before, last := Once(items[..|items| - 1]), items[|items| - 1];
      if last in before then before else before + [last]
  }

  lemma {:induction false} OnceMembers<T>(items: seq<T>)
    ensures forall x :: x in Once(items) <==> x in items
    ensures forall i, j :: 0 <= i < j < |Once(items)| ==> Once(items)[i] != Once(items)[j]
  {
    if items != [] {
      OnceMembers(items[..|items| - 1]);
      assert items == items[..|items| - 1] + [items[|items| - 1]];
    }
  }

  lemma OnceSnoc<T>(before: seq<T>, last: T)
    ensures Once(before + [last]) == if last in Once(before) then Once(before) else Once(before) + [last]
  {
    assert (before + [last])[..|before|] == before;
  }

  // ---- flattening ----------------------------------------------------------------

  function Flatten<T>(lists: seq<seq<T>>): seq<T> {
    if lists == [] then [] else Flatten(lists[..|lists| - 1]) + lists[|lists| - 1]
  }
}
