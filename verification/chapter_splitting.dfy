/** Cutting a novel into chapters (app/ingest.py): headings without a body are merged into a
    neighbouring chapter, and stubs that repeat a neighbour's title are set aside.

    The heading matches are given; the comparison of two titles is a parameter. */
module ChapterSplitting {
  import opened PythonText

  datatype Match = Match(start: nat, end: nat, title: string)
  datatype Chapter = Chapter(idx: nat, title: string, content: string)

  const FALLBACK_CHUNK_CHARS: nat := 3000
  const STUB_CHAPTER_MAX_CHARS: nat := 120

  /** The text without its white space. */
  function Ink(s: string): string {
    if s == "" then "" else (if IsSpace(s[0]) then "" else [s[0]]) + Ink(s[1..])
  }

  function InkOf(chapters: seq<Chapter>): string {
    if chapters == [] then "" else InkOf(chapters[..|chapters| - 1]) + Ink(chapters[|chapters| - 1].content)
  }

  lemma {:induction false} InkAppend(a: string, b: string)
    ensures Ink(a + b) == Ink(a) + Ink(b)
  {
    if a == "" {
      assert a + b == b;
    } else {
      InkAppend(a[1..], b);
      assert (a + b)[1..] == a[1..] + b && (a + b)[0] == a[0];
      Reassociate(if IsSpace(a[0]) then "" else [a[0]], Ink(a[1..]), Ink(b));
    }
  }

  lemma {:induction false} InkOfBlank(s: string)
    requires Blank(s)
    ensures Ink(s) == ""
  {
    if s != "" {
      InkOfBlank(s[1..]);
    }
  }

  lemma {:induction false} InkOfLeftStrip(s: string)
    ensures Ink(LeftStrip(s)) == Ink(s)
  {
    if s != "" && IsSpace(s[0]) {
      InkOfLeftStrip(s[1..]);
    }
  }

  lemma {:induction false} InkOfRightStrip(s: string)
    ensures Ink(RightStrip(s)) == Ink(s)
  {
    if s != "" && IsSpace(s[|s| - 1]) {
      var before, last := s[..|s| - 1], [s[|s| - 1]];
      InkOfRightStrip(before);
      assert s == before + last;
      InkAppend(before, last);
      InkOfBlank(last);
    }
  }

  lemma InkOfStrip(s: string)
    ensures Ink(Strip(s)) == Ink(s)
  {
    InkOfLeftStrip(s);
    InkOfRightStrip(LeftStrip(s));
  }

  // ----- Headings without a body -----

  predicate Ordered(text: string, matches: seq<Match>) {
    && (forall i :: 0 <= i < |matches| ==> matches[i].start <= matches[i].end <= |text|)
    && (forall i :: 0 <= i < |matches| - 1 ==> matches[i].end <= matches[i + 1].start)
  }

  function EndAt(text: string, matches: seq<Match>, i: nat): nat
    requires i < |matches|
  {
    if i + 1 < |matches| then matches[i + 1].start else |text|
  }

  /** Something other than white space stands between the heading and the next. */
  predicate HasBody(text: string, matches: seq<Match>, i: nat)
    requires i < |matches| && Ordered(text, matches)
  {
    !Blank(text[matches[i].end..EndAt(text, matches, i)])
  }

  /** Where the text that a chapter of the `i`-th heading holds begins: at the first of the
      headings without a body right before it. */
  function From(text: string, matches: seq<Match>, i: nat): (n: nat)
    requires i < |matches| && Ordered(text, matches)
    ensures n <= matches[i].start
  {
    if i == 0 || HasBody(text, matches, i - 1) then matches[i].start else From(text, matches, i - 1)
  }

  /** Title and ink of a chapter. */
  type Part = (string, string)

  function PartOf(text: string, matches: seq<Match>, i: nat): Part
    requires i < |matches| && Ordered(text, matches)
  {
    (matches[i].title, Ink(text[From(text, matches, i)..EndAt(text, matches, i)]))
  }

  /** The parts of those of the first `n` headings that have a body. */
  function Bodied(text: string, matches: seq<Match>, n: nat): seq<Part>
    requires n <= |matches| && Ordered(text, matches)
  {
    if n == 0 then []
    else Bodied(text, matches, n - 1) + (if HasBody(text, matches, n - 1) then [PartOf(text, matches, n - 1)] else [])
  }

  function Parts(chapters: seq<Chapter>): seq<Part> {
    seq(|chapters|, k requires 0 <= k < |chapters| => (chapters[k].title, Ink(chapters[k].content)))
  }

  predicate Numbered(chapters: seq<Chapter>) {
    forall k :: 0 <= k < |chapters| ==> chapters[k].idx == k + 1
  }

  lemma OneMore(chapters: seq<Chapter>, c: Chapter)
    ensures InkOf(chapters + [c]) == InkOf(chapters) + Ink(c.content)
    ensures Parts(chapters + [c]) == Parts(chapters) + [(c.title, Ink(c.content))]
  {
    assert (chapters + [c])[..|chapters|] == chapters;
  }

  lemma Extended(text: string, a: nat, b: nat, c: nat)
    requires a <= b <= c <= |text|
    ensures Ink(text[a..c]) == Ink(text[a..b]) + Ink(text[b..c])
  {
    InkAppend(text[a..b], text[b..c]);
    assert text[a..c] == text[a..b] + text[b..c];
  }

  lemma TailMerged(content: string, tail: string)
    ensures Ink(Strip(content + "\n\n" + tail)) == Ink(content) + Ink(tail)
  {
    InkOfStrip(content + "\n\n" + tail);
    InkAppend(content + "\n\n", tail);
    InkAppend(content, "\n\n");
    InkOfBlank("\n\n");
  }

  /** The last part grows by `ink`. */
  function Grown(parts: seq<Part>, ink: string): seq<Part>
    requires parts != []
  {
    var n := |parts| - 1;
    parts[n := (parts[n].0, parts[n].1 + ink)]
  }

  lemma LastReplaced(chapters: seq<Chapter>, content: string, tail: string)
    requires chapters != [] && Ink(content) == Ink(chapters[|chapters| - 1].content) + Ink(tail)
    ensures var n := |chapters| - 1; var r := chapters[n := chapters[n].(content := content)];
            InkOf(r) == InkOf(chapters) + Ink(tail) && Parts(r) == Grown(Parts(chapters), Ink(tail))
  {
    var n := |chapters| - 1;
    assert chapters[n := chapters[n].(content := content)][..n] == chapters[..n];
  }

  /** Where the text that no chapter holds yet begins; `pending` is -1 for None. */
  function Waiting(pending: int, matches: seq<Match>, i: nat): nat
    requires i < |matches|
  {
    if pending >= 0 then pending else matches[i].start
  }

  /** Before the `i`-th heading: everything since the first one is in a chapter or waiting. */
  predicate Mid(text: string, matches: seq<Match>, i: nat, chapters: seq<Chapter>, pending: int)
    requires i < |matches| && Ordered(text, matches)
  {
    var from := From(text, matches, i);
    && Numbered(chapters) && Parts(chapters) == Bodied(text, matches, i)
    && Waiting(pending, matches, i) == from >= matches[0].start
    && InkOf(chapters) == Ink(text[matches[0].start..from])
  }

  /** The parts of all chapters: of the headings with a body, the headings without one behind
      the last of them included there; or of the last heading, if none has a body. */
  function AllParts(text: string, matches: seq<Match>): seq<Part>
    requires Ordered(text, matches)
  {
    var all, last := Bodied(text, matches, |matches|), |matches| - 1;
    if matches == [] || HasBody(text, matches, last) then all
    else if all == [] then [PartOf(text, matches, last)]
    else Grown(all, PartOf(text, matches, last).1)
  }

  /** All text from the first heading on is in the chapters, in order and apart from white
      space, and cut where it should be. */
  predicate Whole(text: string, matches: seq<Match>, chapters: seq<Chapter>)
    requires Ordered(text, matches)
  {
    && Numbered(chapters) && Parts(chapters) == AllParts(text, matches)
    && InkOf(chapters) == if matches == [] then "" else Ink(text[matches[0].start..])
  }

  lemma HeadingWaits(text: string, matches: seq<Match>, i: nat, chapters: seq<Chapter>, pending: int)
    requires Ordered(text, matches) && i + 1 < |matches| && Mid(text, matches, i, chapters, pending)
    requires !HasBody(text, matches, i)
    ensures Mid(text, matches, i + 1, chapters, Waiting(pending, matches, i))
  {
  }

  lemma PieceTaken(text: string, first: nat, from: nat, end: nat, chapters: seq<Chapter>, title: string)
    requires first <= from <= end <= |text| && InkOf(chapters) == Ink(text[first..from]) && Numbered(chapters)
    ensures var all := chapters + [Chapter(|chapters| + 1, title, Strip(text[from..end]))];
            && InkOf(all) == Ink(text[first..end]) && Numbered(all)
            && Parts(all) == Parts(chapters) + [(title, Ink(text[from..end]))]
  {
    Extended(text, first, from, end);
    InkOfStrip(text[from..end]);
    OneMore(chapters, Chapter(|chapters| + 1, title, Strip(text[from..end])));
  }

  lemma HeadingTaken(text: string, matches: seq<Match>, i: nat, chapters: seq<Chapter>, pending: int)
    requires Ordered(text, matches) && i < |matches| && Mid(text, matches, i, chapters, pending)
    requires HasBody(text, matches, i) || (i + 1 == |matches| && chapters == [])
    ensures var from, end := Waiting(pending, matches, i), EndAt(text, matches, i);
            var all := chapters + [Chapter(|chapters| + 1, matches[i].title, Strip(text[from..end]))];
            if i + 1 < |matches| then Mid(text, matches, i + 1, all, -1) else Whole(text, matches, all)
  {
    var end := EndAt(text, matches, i);
    PieceTaken(text, matches[0].start, Waiting(pending, matches, i), end, chapters, matches[i].title);
    assert HasBody(text, matches, i) ==> Bodied(text, matches, i + 1) == Parts(chapters) + [PartOf(text, matches, i)];
    if i + 1 == |matches| {
      assert text[matches[0].start..end] == text[matches[0].start..];
      assert chapters == [] ==> Parts(chapters) == [];
    }
  }

  lemma TailInk(text: string, first: nat, from: nat, chapters: seq<Chapter>)
    requires first <= from <= |text| && InkOf(chapters) == Ink(text[first..from]) && chapters != []
    ensures var n, tail := |chapters| - 1, Strip(text[from..|text|]);
            var all := chapters[n := chapters[n].(content := Strip(chapters[n].content + "\n\n" + tail))];
            InkOf(all) == Ink(text[first..]) && Parts(all) == Grown(Parts(chapters), Ink(text[from..|text|]))
  {
    var n, tail := |chapters| - 1, Strip(text[from..|text|]);
    Extended(text, first, from, |text|);
    InkOfStrip(text[from..|text|]);
    TailMerged(chapters[n].content, tail);
    LastReplaced(chapters, Strip(chapters[n].content + "\n\n" + tail), tail);
    assert text[first..|text|] == text[first..];
  }

  lemma TailTaken(text: string, matches: seq<Match>, i: nat, chapters: seq<Chapter>, pending: int)
    requires Ordered(text, matches) && i + 1 == |matches| && Mid(text, matches, i, chapters, pending)
    requires !HasBody(text, matches, i) && chapters != []
    ensures var n, tail := |chapters| - 1, Strip(text[Waiting(pending, matches, i)..|text|]);
            Whole(text, matches, chapters[n := chapters[n].(content := Strip(chapters[n].content + "\n\n" + tail))])
  {
    TailInk(text, matches[0].start, Waiting(pending, matches, i), chapters);
    assert |Parts(chapters)| > 0;
  }

  /** Something other than white space stands between the heading and the next, at `p`. */
  predicate BodyAt(text: string, matches: seq<Match>, i: nat, p: nat) {
    && i < |matches| && matches[i].end <= p < |text| && !IsSpace(text[p])
    && (i + 1 < |matches| ==> p < matches[i + 1].start)
  }

  lemma BodySomewhere(text: string, matches: seq<Match>, i: nat)
    requires i < |matches| && Ordered(text, matches)
    ensures HasBody(text, matches, i) <==> exists p: nat :: BodyAt(text, matches, i, p)
  {
    var from := matches[i].end;
    var body := text[from..EndAt(text, matches, i)];
    if p: nat :| BodyAt(text, matches, i, p) {
      assert body[p - from] == text[p];
    }
    if !Blank(body) {
      var k :| 0 <= k < |body| && !IsSpace(body[k]);
      assert BodyAt(text, matches, i, from + k);
    }
  }

  lemma {:induction false} PartIsBodied(text: string, matches: seq<Match>, n: nat, i: nat)
    requires i < n <= |matches| && Ordered(text, matches) && HasBody(text, matches, i)
    ensures PartOf(text, matches, i) in Bodied(text, matches, n)
  {
    if i < n - 1 {
      PartIsBodied(text, matches, n - 1, i);
    }
  }

  lemma {:induction false} BodiedIsPart(text: string, matches: seq<Match>, n: nat, k: nat) returns (i: nat)
    requires n <= |matches| && Ordered(text, matches) && k < |Bodied(text, matches, n)|
    ensures i < n && HasBody(text, matches, i) && PartOf(text, matches, i) == Bodied(text, matches, n)[k]
  {
    if k < |Bodied(text, matches, n - 1)| {
      i := BodiedIsPart(text, matches, n - 1, k);
    } else {
      i := n - 1;
    }
  }

  /** Some stretch of `whole` is `ink`. */
  predicate Within(ink: string, whole: string) {
    exists a, b :: 0 <= a <= b <= |whole| && whole[a..b] == ink
  }

  lemma WithinMiddle(before: string, ink: string, after: string)
    ensures Within(ink, before + ink + after)
  {
    assert (before + ink + after)[|before|..|before| + |ink|] == ink;
  }

  /** Headings `i` to `j - 1` have no body. */
  ghost predicate Announces(text: string, matches: seq<Match>, i: nat, j: nat) {
    i <= j && forall h: nat, p: nat :: i <= h < j ==> !BodyAt(text, matches, h, p)
  }

  lemma {:induction false} FromReaches(text: string, matches: seq<Match>, i: nat, j: nat)
    requires j < |matches| && Ordered(text, matches) && Announces(text, matches, i, j)
    ensures From(text, matches, j) <= matches[i].start <= matches[j].start
    decreases j
  {
    if i < j {
      BodySomewhere(text, matches, j - 1);
      FromReaches(text, matches, i, j - 1);
    }
  }

  lemma StretchWithin(text: string, from: nat, start: nat, end: nat, more: string)
    requires from <= start <= end <= |text|
    ensures Within(Ink(text[start..end]), Ink(text[from..end]) + more)
  {
    Extended(text, from, start, end);
    WithinMiddle(Ink(text[from..start]), Ink(text[start..end]), more);
  }

  lemma PartKept(text: string, matches: seq<Match>, k: nat) returns (more: string)
    requires Ordered(text, matches) && k < |Bodied(text, matches, |matches|)|
    ensures k < |AllParts(text, matches)|
    ensures var part := Bodied(text, matches, |matches|)[k]; AllParts(text, matches)[k] == (part.0, part.1 + more)
  {
    var all, last := Bodied(text, matches, |matches|), |matches| - 1;
    more := if HasBody(text, matches, last) || k < |all| - 1 then "" else PartOf(text, matches, last).1;
    assert all[k].1 + "" == all[k].1;
  }

  /** Each heading that something other than white space follows has its chapter: under its
      title, with all text from it to the next heading, and from the headings without a body
      right before it. */
  lemma BodiesAreKept(text: string, matches: seq<Match>, chapters: seq<Chapter>, i: nat, j: nat, p: nat)
    requires Ordered(text, matches) && Whole(text, matches, chapters)
    requires BodyAt(text, matches, j, p) && Announces(text, matches, i, j)
    ensures matches[i].start <= EndAt(text, matches, j)
    ensures exists k :: && 0 <= k < |chapters| && chapters[k].title == matches[j].title
                        && Within(Ink(text[matches[i].start..EndAt(text, matches, j)]), Ink(chapters[k].content))
  {
    BodySomewhere(text, matches, j);
    PartIsBodied(text, matches, |matches|, j);
    FromReaches(text, matches, i, j);
    var all := Bodied(text, matches, |matches|);
    var from, start, end := From(text, matches, j), matches[i].start, EndAt(text, matches, j);
    var k :| 0 <= k < |all| && all[k] == PartOf(text, matches, j);
    var more := PartKept(text, matches, k);
    assert Parts(chapters)[k] == (chapters[k].title, Ink(chapters[k].content));
    StretchWithin(text, from, start, end, more);
  }

  /** And there are no other chapters, unless nothing follows any heading. */
  lemma ChaptersHaveBodies(text: string, matches: seq<Match>, chapters: seq<Chapter>, k: nat)
    requires Ordered(text, matches) && Whole(text, matches, chapters) && k < |chapters|
    ensures || (exists i: nat, p: nat :: BodyAt(text, matches, i, p) && matches[i].title == chapters[k].title)
            || (|chapters| == 1 && forall i: nat, p: nat :: !BodyAt(text, matches, i, p))
  {
    var all := Bodied(text, matches, |matches|);
    assert Parts(chapters)[k].0 == chapters[k].title;
    if all != [] {
      var i := BodiedIsPart(text, matches, |matches|, k);
      BodySomewhere(text, matches, i);
    } else {
      forall i: nat, p: nat ensures !BodyAt(text, matches, i, p) {
        if i < |matches| {
          BodySomewhere(text, matches, i);
          if HasBody(text, matches, i) {
            PartIsBodied(text, matches, |matches|, i);
          }
        }
      }
    }
  }

  /** _merge_heading_only_matches. No text is lost, whatever runs of empty headings occur. */
  method MergeHeadingOnly(text: string, matches: seq<Match>) returns (chapters: seq<Chapter>)
    requires Ordered(text, matches)
    ensures Whole(text, matches, chapters)
  {
    chapters := [];
    var pending: int := -1;
    for i := 0 to |matches|
      invariant i < |matches| ==> Mid(text, matches, i, chapters, pending)
      invariant i == |matches| ==> Whole(text, matches, chapters)
    {
      var end := EndAt(text, matches, i);
      var isLast := i + 1 == |matches|;
      var effective := Waiting(pending, matches, i);
      var remainder := Strip(text[matches[i].end..end]);
      StripStrips(text[matches[i].end..end]);
      if remainder == "" && !isLast {
        HeadingWaits(text, matches, i, chapters, pending);
        pending := effective;
        continue;
      }
      if remainder == "" && isLast && chapters != [] {
        TailTaken(text, matches, i, chapters, pending);
        var n, tail := |chapters| - 1, Strip(text[effective..end]);
        chapters := chapters[n := chapters[n].(content := Strip(chapters[n].content + "\n\n" + tail))];
        return;
      }
      HeadingTaken(text, matches, i, chapters, pending);
      chapters := chapters + [Chapter(|chapters| + 1, matches[i].title, Strip(text[effective..end]))];
      pending := -1;
    }
  }

  predicate Pieces(text: string, chapters: seq<Chapter>, upTo: nat) {
    && upTo <= |text| && InkOf(chapters) == Ink(text[..upTo]) && Numbered(chapters)
    && (forall k :: 0 <= k < |chapters| ==> 0 < |chapters[k].content| <= 3000)
  }

  lemma PieceCut(text: string, chapters: seq<Chapter>, i: nat, end: nat, title: string)
    requires Pieces(text, chapters, i) && i <= end <= |text| && end - i <= FALLBACK_CHUNK_CHARS
    ensures var chunk := Strip(text[i..end]);
            Pieces(text, if chunk != "" then chapters + [Chapter(|chapters| + 1, title, chunk)] else chapters, end)
  {
    var chunk := Strip(text[i..end]);
    assert text[0..i] == text[..i] && text[0..end] == text[..end];
    StripShortens(text[i..end]);
    if chunk == "" {
      Extended(text, 0, i, end);
      InkOfStrip(text[i..end]);
    } else {
      PieceTaken(text, 0, i, end, chapters, title);
    }
  }

  /** The fallback for a text without headings: pieces of fixed length. */
  method SplitByLength(text: string, title: nat -> string) returns (chapters: seq<Chapter>)
    ensures Pieces(text, chapters, |text|) && 3000 * |chapters| < |text| + 3000
  {
    chapters := [];
    var i := 0;
    while i < |text|
      invariant 0 <= i < |text| + 3000 && 3000 * |chapters| <= i
      invariant Pieces(text, chapters, if i < |text| then i else |text|)
    {
      var end := if i + FALLBACK_CHUNK_CHARS < |text| then i + FALLBACK_CHUNK_CHARS else |text|;
      var chunk := Strip(text[i..end]);
      PieceCut(text, chapters, i, end, title(|chapters| + 1));
      if chunk != "" {
        chapters := chapters + [Chapter(|chapters| + 1, title(|chapters| + 1), chunk)];
      }
      i := i + FALLBACK_CHUNK_CHARS;
    }
  }

  lemma {:induction false} LeftStripShortens(s: string)
    ensures |LeftStrip(s)| <= |s|
  {
    if s != "" && IsSpace(s[0]) {
      LeftStripShortens(s[1..]);
    }
  }

  lemma StripShortens(s: string)
    ensures |Strip(s)| <= |s|
  {
    LeftStripShortens(s);
    RightStripEnds(LeftStrip(s));
  }

  // ----- Stubs -----

  function Max(a: nat, b: nat): nat {
    if a >= b then a else b
  }

  /** chapter_is_stub. */
  predicate IsStub(c: Chapter) {
    |Ink(c.content)| <= Max(STUB_CHAPTER_MAX_CHARS, |Ink(c.title)| * 3)
  }

  /** What chapter_titles_match may be. */
  type TitleMatch = (string, string) -> bool

  predicate MuchRicher(rich: Chapter, stub: Chapter) {
    |rich.content| >= Max(STUB_CHAPTER_MAX_CHARS, |stub.content| * 3)
  }

  /** One chapter stands in for another: that is little more than a title, and this has a body
      and is three times as long. */
  predicate Covers(rich: Chapter, stub: Chapter, same: TitleMatch) {
    && (|Ink(stub.content)| <= 120 || |Ink(stub.content)| <= 3 * |Ink(stub.title)|)
    && |Ink(rich.content)| > 120 && |Ink(rich.content)| > 3 * |Ink(rich.title)|
    && |rich.content| >= 120 && |rich.content| >= 3 * |stub.content|
    && (same(stub.title, rich.title) || same(rich.title, stub.title))
  }

  /** The pair at hand is a stub beside the chapter it announces. */
  predicate Redundant(a: Chapter, b: Chapter, same: TitleMatch) {
    && same(a.title, b.title) && IsStub(a) != IsStub(b)
    && (if IsStub(a) then MuchRicher(b, a) else MuchRicher(a, b))
  }

  function Richer(a: Chapter, b: Chapter): Chapter {
    if IsStub(a) then b else a
  }

  function Poorer(a: Chapter, b: Chapter): Chapter {
    if IsStub(a) then a else b
  }

  function Deduped(chapters: seq<Chapter>, same: TitleMatch): (r: (seq<Chapter>, seq<Chapter>))
    decreases |chapters|
  {
    if chapters == [] then ([], [])
    else if |chapters| > 1 && Redundant(chapters[0], chapters[1], same) then
      var (kept, removed) := Deduped(chapters[2..], same);
      ([Richer(chapters[0], chapters[1])] + kept, [Poorer(chapters[0], chapters[1])] + removed)
    else
      var (kept, removed) := Deduped(chapters[1..], same);
      ([chapters[0]] + kept, removed)
  }

  function Renumbered(chapters: seq<Chapter>): (r: seq<Chapter>)
    ensures |r| == |chapters| && Numbered(r)
    ensures forall k :: 0 <= k < |r| ==> r[k].(idx := chapters[k].idx) == chapters[k]
  {
    seq(|chapters|, k requires 0 <= k < |chapters| => chapters[k].(idx := k + 1))
  }

  lemma Reassociate<T>(a: seq<T>, b: seq<T>, c: seq<T>)
    ensures (a + b) + c == a + (b + c)
  {
  }

  /** dedupe_stub_chapters. */
  method DedupeStubs(chapters: seq<Chapter>, same: TitleMatch) returns (kept: seq<Chapter>, removed: seq<Chapter>)
    ensures kept == Renumbered(Deduped(chapters, same).0) && removed == Deduped(chapters, same).1
  {
    kept, removed := [], [];
    var i := 0;
    while i < |chapters|
      invariant 0 <= i <= |chapters|
      invariant kept + Deduped(chapters[i..], same).0 == Deduped(chapters, same).0
      invariant removed + Deduped(chapters[i..], same).1 == Deduped(chapters, same).1
    {
      var rest := chapters[i..];
      assert rest[1..] == chapters[i + 1..];
      if i + 1 < |chapters| {
        var current, following := chapters[i], chapters[i + 1];
        assert rest[1] == following && rest[2..] == chapters[i + 2..];
        if Redundant(current, following, same) {
          var later := Deduped(chapters[i + 2..], same);
          Reassociate(kept, [Richer(current, following)], later.0);
          Reassociate(removed, [Poorer(current, following)], later.1);
          kept := kept + [Richer(current, following)];
          removed := removed + [Poorer(current, following)];
          i := i + 2;
          continue;
        }
      }
      Reassociate(kept, [chapters[i]], Deduped(chapters[i + 1..], same).0);
      kept := kept + [chapters[i]];
      i := i + 1;
    }
    kept := Renumbered(kept);
  }

  /** `whole` is made of `a` and `b`, each in its order. */
  predicate Interleaves(a: seq<Chapter>, b: seq<Chapter>, whole: seq<Chapter>)
    decreases |whole|
  {
    if whole == [] then a == [] && b == []
    else
      || (a != [] && a[0] == whole[0] && Interleaves(a[1..], b, whole[1..]))
      || (b != [] && b[0] == whole[0] && Interleaves(a, b[1..], whole[1..]))
  }

  lemma InterleaveLeft(c: Chapter, a: seq<Chapter>, b: seq<Chapter>, whole: seq<Chapter>)
    requires Interleaves(a, b, whole)
    ensures Interleaves([c] + a, b, [c] + whole)
  {
    assert ([c] + a)[1..] == a && ([c] + whole)[1..] == whole;
  }

  lemma InterleaveRight(c: Chapter, a: seq<Chapter>, b: seq<Chapter>, whole: seq<Chapter>)
    requires Interleaves(a, b, whole)
    ensures Interleaves(a, [c] + b, [c] + whole)
  {
    assert ([c] + b)[1..] == b && ([c] + whole)[1..] == whole;
  }

  /** Stub removal parts the chapters into kept and removed, each in order. */
  lemma {:induction false} DedupePartitions(chapters: seq<Chapter>, same: TitleMatch)
    ensures var (kept, removed) := Deduped(chapters, same); Interleaves(kept, removed, chapters)
    decreases |chapters|
  {
    if chapters != [] {
      if |chapters| > 1 && Redundant(chapters[0], chapters[1], same) {
        DedupePartitions(chapters[2..], same);
        var (kept, removed) := Deduped(chapters[2..], same);
        var a, b, rest := chapters[0], chapters[1], chapters[2..];
        assert chapters == [a] + ([b] + rest);
        if IsStub(a) {
          InterleaveLeft(b, kept, removed, rest);
          InterleaveRight(a, [b] + kept, removed, [b] + rest);
        } else {
          InterleaveRight(b, kept, removed, rest);
          InterleaveLeft(a, kept, [b] + removed, [b] + rest);
        }
      } else {
        DedupePartitions(chapters[1..], same);
        var (kept, removed) := Deduped(chapters[1..], same);
        assert chapters == [chapters[0]] + chapters[1..];
        InterleaveLeft(chapters[0], kept, removed, chapters[1..]);
      }
    }
  }

  /** Only stubs are removed, and each has a chapter of its own title kept for it. */
  lemma {:induction false} RemovedStubsAreCovered(chapters: seq<Chapter>, same: TitleMatch, stub: Chapter)
    requires stub in Deduped(chapters, same).1
    ensures exists rich :: rich in Deduped(chapters, same).0 && Covers(rich, stub, same)
    decreases |chapters|
  {
    if |chapters| > 1 && Redundant(chapters[0], chapters[1], same) {
      var rich, poor := Richer(chapters[0], chapters[1]), Poorer(chapters[0], chapters[1]);
      if stub == poor {
        assert rich == Deduped(chapters, same).0[0];
        assert Covers(rich, stub, same);
      } else {
        RemovedStubsAreCovered(chapters[2..], same, stub);
        var r :| r in Deduped(chapters[2..], same).0 && Covers(r, stub, same);
        assert r in Deduped(chapters, same).0;
      }
    } else {
      RemovedStubsAreCovered(chapters[1..], same, stub);
      var r :| r in Deduped(chapters[1..], same).0 && Covers(r, stub, same);
      assert r in Deduped(chapters, same).0;
    }
  }

  /** One pass can leave work for a second: of a stub, its chapter and another stub, the last
      stays. */
  lemma OnePassIsNotEnough(rich: Chapter, stub: Chapter, same: TitleMatch)
    requires IsStub(stub) && !IsStub(rich) && MuchRicher(rich, stub)
    requires same(stub.title, rich.title) && same(rich.title, stub.title)
    ensures Deduped([stub, rich, stub], same).0 == [rich, stub]
    ensures Deduped([rich, stub], same).0 == [rich]
  {
    var all := [stub, rich, stub];
    assert all[2..] == [stub] && [stub][1..] == [] && [rich, stub][2..] == [];
    assert Deduped([stub], same).0 == [stub] + Deduped([], same).0;
  }

  lemma RedundantExact(a: Chapter, b: Chapter, same: TitleMatch)
    ensures Redundant(a, b, same) <==> same(a.title, b.title) && (Covers(a, b, same) || Covers(b, a, same))
  {
  }

  /** One pass removes nothing exactly when of no two neighbours with one title either stands
      in for the other. */
  lemma NothingRemovedExact(chapters: seq<Chapter>, same: TitleMatch)
    ensures Deduped(chapters, same).1 == [] <==>
            forall k :: 0 < k < |chapters| && same(chapters[k - 1].title, chapters[k].title) ==>
              !Covers(chapters[k - 1], chapters[k], same) && !Covers(chapters[k], chapters[k - 1], same)
  {
    QuietExact(chapters, same);
    forall k | 0 < k < |chapters|
      ensures Redundant(chapters[k - 1], chapters[k], same) <==>
              && same(chapters[k - 1].title, chapters[k].title)
              && (Covers(chapters[k - 1], chapters[k], same) || Covers(chapters[k], chapters[k - 1], same))
    {
      RedundantExact(chapters[k - 1], chapters[k], same);
    }
  }

  // ----- When a second pass removes nothing -----

  /** No two neighbours are a stub and the chapter it announces. */
  predicate Quiet(chapters: seq<Chapter>, same: TitleMatch) {
    forall k :: 0 < k < |chapters| ==> !Redundant(chapters[k - 1], chapters[k], same)
  }

  lemma {:induction false} QuietExact(chapters: seq<Chapter>, same: TitleMatch)
    ensures Deduped(chapters, same).1 == [] <==> Quiet(chapters, same)
    ensures Quiet(chapters, same) ==> Deduped(chapters, same).0 == chapters
    decreases |chapters|
  {
    if |chapters| > 1 && Redundant(chapters[0], chapters[1], same) {
      assert !Quiet(chapters, same);
    } else if chapters != [] {
      var rest := chapters[1..];
      QuietExact(rest, same);
      assert Quiet(rest, same) <==> Quiet(chapters, same) by {
        if Quiet(rest, same) {
          forall k | 0 < k < |chapters| ensures !Redundant(chapters[k - 1], chapters[k], same) {
            assert k > 1 ==> rest[k - 2] == chapters[k - 1] && rest[k - 1] == chapters[k];
          }
        }
        if Quiet(chapters, same) {
          forall k | 0 < k < |rest| ensures !Redundant(rest[k - 1], rest[k], same) {
            assert rest[k - 1] == chapters[k] && rest[k] == chapters[k + 1];
          }
        }
      }
    }
  }

  predicate PairFirst(chapters: seq<Chapter>, same: TitleMatch) {
    |chapters| > 1 && Redundant(chapters[0], chapters[1], same)
  }

  /** Somewhere a stub that the scan does not pair stands beside a pair, and is redundant
      beside the chapter the pair keeps. */
  predicate LeavesWork(chapters: seq<Chapter>, same: TitleMatch)
    decreases |chapters|
  {
    if |chapters| < 3 then false
    else if PairFirst(chapters, same) then
      || (!PairFirst(chapters[2..], same) && Redundant(Richer(chapters[0], chapters[1]), chapters[2], same))
      || LeavesWork(chapters[2..], same)
    else
      || (PairFirst(chapters[1..], same) && Redundant(chapters[0], Richer(chapters[1], chapters[2]), same))
      || LeavesWork(chapters[1..], same)
  }

  lemma QuietFront(c: Chapter, rest: seq<Chapter>, same: TitleMatch)
    ensures Quiet([c] + rest, same) <==> (rest == [] || !Redundant(c, rest[0], same)) && Quiet(rest, same)
  {
    var whole := [c] + rest;
    assert forall k :: 0 <= k < |rest| ==> whole[k + 1] == rest[k];
    if Quiet(whole, same) {
      forall k | 0 < k < |rest| ensures !Redundant(rest[k - 1], rest[k], same) {
        assert !Redundant(whole[k], whole[k + 1], same);
      }
      assert rest != [] ==> !Redundant(whole[0], whole[1], same);
    }
  }

  lemma {:induction false} WorkLeft(chapters: seq<Chapter>, same: TitleMatch)
    ensures Quiet(Deduped(chapters, same).0, same) <==> !LeavesWork(chapters, same)
    decreases |chapters|
  {
    if PairFirst(chapters, same) {
      var rest := chapters[2..];
      WorkLeft(rest, same);
      QuietFront(Richer(chapters[0], chapters[1]), Deduped(rest, same).0, same);
    } else if chapters != [] {
      var rest := chapters[1..];
      WorkLeft(rest, same);
      QuietFront(chapters[0], Deduped(rest, same).0, same);
    }
  }

  /** A second pass removes nothing exactly when no such stub is there in the first place. */
  lemma OnePassIsEnoughExact(chapters: seq<Chapter>, same: TitleMatch)
    ensures Deduped(Renumbered(Deduped(chapters, same).0), same).1 == [] <==> !LeavesWork(chapters, same)
  {
    var kept := Deduped(chapters, same).0;
    var again := Renumbered(kept);
    WorkLeft(chapters, same);
    QuietExact(again, same);
    assert Quiet(again, same) <==> Quiet(kept, same) by {
      forall k | 0 < k < |kept|
        ensures Redundant(again[k - 1], again[k], same) == Redundant(kept[k - 1], kept[k], same)
      {
        assert again[k].(idx := kept[k].idx) == kept[k] && again[k - 1].(idx := kept[k - 1].idx) == kept[k - 1];
      }
    }
  }
}
