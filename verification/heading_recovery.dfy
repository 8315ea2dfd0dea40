/** Recovery of missing headings (_recover_missing_unit_headings in app/ingest.py): while a
    chapter's number leaves a gap before the next chapter's, the missing heading is looked
    for inside the chapter and the chapter is cut there.

    A content is the list of its lines.  Where the missing heading is found, and the number
    in a title, are parameters. */
module HeadingRecovery {
  import opened Wrappers
  import opened PythonText

  type Line = string
  datatype Chapter = Chapter(title: string, lines: seq<Line>)
  datatype Entry = Entry(idx: nat, chapter: Chapter)

  /** Cut before line `at`; that line becomes `first`, and `prefix` goes to the left side. */
  datatype Split = Split(at: nat, title: string, first: Line, prefix: Line)

  type Finder = (seq<Line>, int) -> Option<Split>
  type Numbering = string -> Option<int>

  const STUB_CHAPTER_MAX_CHARS: nat := 120

  // ----- clean_text on lines -----

  predicate OnlyOf(s: Line, points: set<int>) {
    forall i :: 0 <= i < |s| ==> s[i] as int in points
  }

  const RULE: set<int> := {0x2d, 0x5f, 0x3d, 0x7e, 0x2a}
  const WIDE_RULE: set<int> := {0xff0d, 0x2014, 0xff5e, 0xb7}
  const JUNK: set<int> := {0x3b, 0xff1b, 0x2c, 0xff0c, 0x3a, 0xff1a, 0x7c, 0x4e28}

  /** A line of nothing but rules or stray punctuation. */
  predicate Dropped(s: Line) {
    || (|s| >= 4 && (OnlyOf(s, RULE) || OnlyOf(s, WIDE_RULE)))
    || (|s| >= 1 && OnlyOf(s, JUNK))
  }

  /** Lines stripped, and rules and junk gone. */
  function Swept(lines: seq<Line>): seq<Line> {
    if lines == [] then []
    else Swept(lines[..|lines| - 1]) + (if Dropped(Strip(lines[|lines| - 1])) then [] else [Strip(lines[|lines| - 1])])
  }

  /** Of neighbouring empty lines one stays, and none at the start. */
  function Collapsed(lines: seq<Line>): seq<Line> {
    if lines == [] then []
    else
      var before := Collapsed(lines[..|lines| - 1]);
      var last := lines[|lines| - 1];
      if last == "" && (before == [] || before[|before| - 1] == "") then before else before + [last]
  }

  function WithoutTail(lines: seq<Line>): seq<Line> {
    if lines != [] && lines[|lines| - 1] == "" then WithoutTail(lines[..|lines| - 1]) else lines
  }

  function Clean(lines: seq<Line>): seq<Line> {
    WithoutTail(Collapsed(Swept(lines)))
  }

  /** The length of the lines joined by line feeds. */
  function Length(lines: seq<Line>): nat {
    if lines == [] then 0
    else if |lines| == 1 then |lines[0]|
    else Length(lines[..|lines| - 1]) + 1 + |lines[|lines| - 1]|
  }

  lemma {:induction false} CleanShortens(lines: seq<Line>)
    ensures |Clean(lines)| <= |lines|
  {
    SweptShortens(lines);
    CollapsedShortens(Swept(lines));
    TailShortens(Collapsed(Swept(lines)));
  }

  lemma {:induction false} SweptShortens(lines: seq<Line>)
    ensures |Swept(lines)| <= |lines|
  {
    if lines != [] {
      SweptShortens(lines[..|lines| - 1]);
    }
  }

  lemma {:induction false} CollapsedShortens(lines: seq<Line>)
    ensures |Collapsed(lines)| <= |lines|
  {
    if lines != [] {
      CollapsedShortens(lines[..|lines| - 1]);
    }
  }

  lemma {:induction false} TailShortens(lines: seq<Line>)
    ensures |WithoutTail(lines)| <= |lines|
  {
    if lines != [] && lines[|lines| - 1] == "" {
      TailShortens(lines[..|lines| - 1]);
    }
  }

  // ----- Letters are kept -----

  /** Neither white space nor a symbol that a dropped line may consist of. */
  predicate IsLetter(c: char) {
    !IsSpace(c) && c as int !in RULE && c as int !in WIDE_RULE && c as int !in JUNK
  }

  function Letters(s: Line): string {
    if s == "" then "" else (if IsLetter(s[0]) then [s[0]] else "") + Letters(s[1..])
  }

  function LettersOf(lines: seq<Line>): string {
    if lines == [] then "" else LettersOf(lines[..|lines| - 1]) + Letters(lines[|lines| - 1])
  }

  lemma {:induction false} NoLetters(s: Line)
    requires forall i :: 0 <= i < |s| ==> !IsLetter(s[i])
    ensures Letters(s) == ""
  {
    if s != "" {
      NoLetters(s[1..]);
    }
  }

  lemma DroppedHasNoLetters(s: Line)
    requires Dropped(s) || s == ""
    ensures Letters(s) == ""
  {
    NoLetters(s);
  }

  lemma {:induction false} LettersAppend(a: string, b: string)
    ensures Letters(a + b) == Letters(a) + Letters(b)
  {
    if a == "" {
      assert a + b == b;
    } else {
      LettersAppend(a[1..], b);
      assert (a + b)[1..] == a[1..] + b && (a + b)[0] == a[0];
      Reassociate(if IsLetter(a[0]) then [a[0]] else "", Letters(a[1..]), Letters(b));
    }
  }

  lemma Reassociate<T>(a: seq<T>, b: seq<T>, c: seq<T>)
    ensures (a + b) + c == a + (b + c)
  {
  }

  lemma {:induction false} LettersOfLeftStrip(s: string)
    ensures Letters(LeftStrip(s)) == Letters(s)
  {
    if s != "" && IsSpace(s[0]) {
      LettersOfLeftStrip(s[1..]);
    }
  }

  lemma {:induction false} LettersOfRightStrip(s: string)
    ensures Letters(RightStrip(s)) == Letters(s)
  {
    if s != "" && IsSpace(s[|s| - 1]) {
      var before, last := s[..|s| - 1], [s[|s| - 1]];
      LettersOfRightStrip(before);
      assert s == before + last;
      LettersAppend(before, last);
      NoLetters(last);
    }
  }

  lemma LettersOfStrip(s: string)
    ensures Letters(Strip(s)) == Letters(s)
  {
    LettersOfLeftStrip(s);
    LettersOfRightStrip(LeftStrip(s));
  }

  lemma LastLine(lines: seq<Line>, line: Line)
    ensures LettersOf(lines + [line]) == LettersOf(lines) + Letters(line)
  {
    assert (lines + [line])[..|lines|] == lines;
  }

  lemma {:induction false} LinesAppend(a: seq<Line>, b: seq<Line>)
    ensures LettersOf(a + b) == LettersOf(a) + LettersOf(b)
    decreases |b|
  {
    if b == [] {
      assert a + b == a;
    } else {
      var before, last := b[..|b| - 1], b[|b| - 1];
      LinesAppend(a, before);
      assert a + b == (a + before) + [last];
      LastLine(a + before, last);
      Reassociate(LettersOf(a), LettersOf(before), Letters(last));
    }
  }

  lemma {:induction false} SweptKeepsLetters(lines: seq<Line>)
    ensures LettersOf(Swept(lines)) == LettersOf(lines)
  {
    if lines != [] {
      var before, last := lines[..|lines| - 1], lines[|lines| - 1];
      SweptKeepsLetters(before);
      LettersOfStrip(last);
      if Dropped(Strip(last)) {
        DroppedHasNoLetters(Strip(last));
        assert Swept(lines) == Swept(before);
      } else {
        LastLine(Swept(before), Strip(last));
      }
    }
  }

  lemma {:induction false} CollapsedKeepsLetters(lines: seq<Line>)
    ensures LettersOf(Collapsed(lines)) == LettersOf(lines)
  {
    if lines != [] {
      var before, last := lines[..|lines| - 1], lines[|lines| - 1];
      CollapsedKeepsLetters(before);
      if last == "" {
        DroppedHasNoLetters(last);
      }
      LastLine(Collapsed(before), last);
    }
  }

  lemma {:induction false} TailKeepsLetters(lines: seq<Line>)
    ensures LettersOf(WithoutTail(lines)) == LettersOf(lines)
  {
    if lines != [] && lines[|lines| - 1] == "" {
      TailKeepsLetters(lines[..|lines| - 1]);
      DroppedHasNoLetters("");
    }
  }

  /** Cleaning lines loses no letter. */
  lemma CleanKeepsLetters(lines: seq<Line>)
    ensures LettersOf(Clean(lines)) == LettersOf(lines)
  {
    SweptKeepsLetters(lines);
    CollapsedKeepsLetters(Swept(lines));
    TailKeepsLetters(Collapsed(Swept(lines)));
  }

  /** `a` can be had from `b` by leaving letters out. */
  predicate IsWithin(a: string, b: string)
    decreases |b|
  {
    if a == "" then true
    else if b == "" then false
    else if a[0] == b[0] then IsWithin(a[1..], b[1..])
    else IsWithin(a, b[1..])
  }

  lemma {:induction false} WithinItself(a: string)
    ensures IsWithin(a, a)
  {
    if a != "" {
      WithinItself(a[1..]);
    }
  }

  lemma {:induction false} WithinDrop(a: string, b: string)
    requires a != "" && IsWithin(a, b)
    ensures IsWithin(a[1..], b)
    decreases |b|, 0
  {
    if a[0] == b[0] {
      WithinWider(a[1..], b[1..], b[0]);
    } else {
      WithinDrop(a, b[1..]);
      WithinWider(a[1..], b[1..], b[0]);
    }
    assert [b[0]] + b[1..] == b;
  }

  lemma {:induction false} WithinWider(a: string, b: string, c: char)
    requires IsWithin(a, b)
    ensures IsWithin(a, [c] + b)
    decreases |b|, 1
  {
    assert ([c] + b)[1..] == b;
    if a != "" && a[0] == c {
      WithinDrop(a, b);
    }
  }

  lemma {:induction false} WithinBehind(a: string, b: string, c: string)
    requires IsWithin(a, c)
    ensures IsWithin(a, b + c)
    decreases |b|
  {
    if b == "" {
      assert b + c == c;
    } else {
      WithinBehind(a, b[1..], c);
      WithinWider(a, b[1..] + c, b[0]);
      assert b + c == [b[0]] + (b[1..] + c);
    }
  }

  lemma {:induction false} WithinBoth(a: string, b: string, c: string, d: string)
    requires IsWithin(a, b) && IsWithin(c, d)
    ensures IsWithin(a + c, b + d)
    decreases |b|
  {
    if a == "" {
      assert a + c == c;
      WithinBehind(c, b, d);
    } else {
      assert (b + d)[1..] == b[1..] + d && (b + d)[0] == b[0] && (a + c)[0] == a[0];
      if a[0] == b[0] {
        WithinBoth(a[1..], b[1..], c, d);
        assert (a + c)[1..] == a[1..] + c;
      } else {
        WithinBoth(a, b[1..], c, d);
      }
    }
  }

  lemma {:induction false} WithinThrough(a: string, b: string, c: string)
    requires IsWithin(a, b) && IsWithin(b, c)
    ensures IsWithin(a, c)
    decreases |c|
  {
    if a != "" {
      if b[0] == c[0] {
        if a[0] == b[0] {
          WithinThrough(a[1..], b[1..], c[1..]);
        } else {
          WithinThrough(a, b[1..], c[1..]);
        }
      } else {
        WithinThrough(a, b, c[1..]);
        WithinWider(a, c[1..], c[0]);
        assert [c[0]] + c[1..] == c;
      }
    }
  }

  // ----- The recovery -----

  /** What the search for a missing heading promises: a line after the first, none of whose
      letters is lost (it may gain the missing word of a heading). */
  ghost predicate Sensible(find: Finder) {
    forall lines, expected :: find(lines, expected).Some? ==> Proper(lines, find(lines, expected).value)
  }

  predicate Proper(lines: seq<Line>, s: Split) {
    1 <= s.at < |lines| && IsWithin(Letters(lines[s.at]), Letters(s.prefix) + Letters(s.first))
  }

  function LeftSide(lines: seq<Line>, s: Split): seq<Line>
    requires s.at <= |lines|
  {
    Clean(lines[..s.at] + (if s.prefix == "" then [] else [s.prefix]))
  }

  function RightSide(lines: seq<Line>, s: Split): seq<Line>
    requires s.at < |lines|
  {
    Clean([s.first] + lines[s.at + 1..])
  }

  /** The split the loop makes, if it goes on. */
  function NextSplit(c: Chapter, next: int, find: Finder, number: Numbering): (s: Option<Split>)
    requires Sensible(find)
    ensures s.Some? ==> Proper(c.lines, s.value)
  {
    var n := number(c.title);
    if n.None? || next <= n.value + 1 then None
    else
      var s := find(c.lines, n.value + 1);
      if s.None? then None
      else if Length(LeftSide(c.lines, s.value)) < STUB_CHAPTER_MAX_CHARS
           || Length(RightSide(c.lines, s.value)) < STUB_CHAPTER_MAX_CHARS then None
      else s
  }

  lemma RightIsShorter(lines: seq<Line>, s: Split)
    requires Proper(lines, s)
    ensures |RightSide(lines, s)| <= |lines| - s.at < |lines|
  {
    CleanShortens([s.first] + lines[s.at + 1..]);
  }

  /** The chapter cut up until no further heading is found. */
  function Fragments(c: Chapter, next: int, find: Finder, number: Numbering): (fs: seq<Chapter>)
    requires Sensible(find)
    ensures fs != []
    decreases |c.lines|
  {
    var s := NextSplit(c, next, find, number);
    if s.None? then [c]
    else
      RightIsShorter(c.lines, s.value);
      [Chapter(c.title, LeftSide(c.lines, s.value))]
      + Fragments(Chapter(s.value.title, RightSide(c.lines, s.value)), next, find, number)
  }

  function FragmentsBefore(chapters: seq<Chapter>, i: nat, find: Finder, number: Numbering): seq<Chapter>
    requires i < |chapters| && Sensible(find)
  {
    var next := if i + 1 < |chapters| then number(chapters[i + 1].title) else None;
    if next.None? then [chapters[i]] else Fragments(chapters[i], next.value, find, number)
  }

  function RecoveredUpTo(chapters: seq<Chapter>, n: nat, find: Finder, number: Numbering): seq<Chapter>
    requires n <= |chapters| && Sensible(find)
  {
    if n == 0 then []
    else RecoveredUpTo(chapters, n - 1, find, number) + FragmentsBefore(chapters, n - 1, find, number)
  }

  /** The part of the loop that may break out of it. */
  method TryCut(c: Chapter, next: int, find: Finder, number: Numbering) returns (s: Option<Split>)
    requires Sensible(find)
    ensures s == NextSplit(c, next, find, number)
  {
    var n := number(c.title);
    if n.None? || next <= n.value + 1 {
      return None;
    }
    s := find(c.lines, n.value + 1);
    if s.None? {
      return None;
    }
    var left, right := LeftSide(c.lines, s.value), RightSide(c.lines, s.value);
    if Length(left) < STUB_CHAPTER_MAX_CHARS || Length(right) < STUB_CHAPTER_MAX_CHARS {
      return None;
    }
  }

  /** The inner loop. Each split leaves fewer lines, so it ends. */
  method CutUp(c: Chapter, next: int, find: Finder, number: Numbering) returns (fs: seq<Chapter>)
    requires Sensible(find)
    ensures fs == Fragments(c, next, find, number)
  {
    var done := [];
    var current := c;
    while true
      invariant done + Fragments(current, next, find, number) == Fragments(c, next, find, number)
      decreases |current.lines|
    {
      var s := TryCut(current, next, find, number);
      if s.None? {
        break;
      }
      var left, right := LeftSide(current.lines, s.value), RightSide(current.lines, s.value);
      RightIsShorter(current.lines, s.value);
      Reassociate(done, [Chapter(current.title, left)], Fragments(Chapter(s.value.title, right), next, find, number));
      done := done + [Chapter(current.title, left)];
      current := Chapter(s.value.title, right);
    }
    fs := done + [current];
  }

  method CutUpAt(chapters: seq<Chapter>, i: nat, find: Finder, number: Numbering) returns (fs: seq<Chapter>)
    requires i < |chapters| && Sensible(find)
    ensures fs == FragmentsBefore(chapters, i, find, number)
  {
    var next := if i + 1 < |chapters| then number(chapters[i + 1].title) else None;
    if next.None? {
      return [chapters[i]];
    }
    fs := CutUp(chapters[i], next.value, find, number);
  }

  /** _recover_missing_unit_headings, without the renumbering at its end. */
  method Recover(chapters: seq<Chapter>, find: Finder, number: Numbering) returns (recovered: seq<Entry>)
    requires Sensible(find)
    ensures var all := RecoveredUpTo(chapters, |chapters|, find, number);
            |recovered| == |all| && forall k :: 0 <= k < |all| ==> recovered[k] == Entry(k + 1, all[k])
  {
    var all := [];
    for i := 0 to |chapters|
      invariant all == RecoveredUpTo(chapters, i, find, number)
    {
      var fs := CutUpAt(chapters, i, find, number);
      all := all + fs;
    }
    recovered := [];
    for k := 0 to |all|
      invariant |recovered| == k && forall m :: 0 <= m < k ==> recovered[m] == Entry(m + 1, all[m])
    {
      recovered := recovered + [Entry(k + 1, all[k])];
    }
  }

  // ----- What recovery does to a chapter -----

  /** The loop makes fewer splits than the chapter has lines. */
  lemma {:induction false} FewFragments(c: Chapter, next: int, find: Finder, number: Numbering)
    requires Sensible(find)
    ensures |Fragments(c, next, find, number)| <= if |c.lines| == 0 then 1 else |c.lines|
    decreases |c.lines|
  {
    var s := NextSplit(c, next, find, number);
    if s.Some? {
      RightIsShorter(c.lines, s.value);
      FewFragments(Chapter(s.value.title, RightSide(c.lines, s.value)), next, find, number);
    }
  }

  /** A chapter that is cut falls into fragments none of which is a stub, and the first keeps
      its title. */
  lemma {:induction false} NoFragmentIsShort(c: Chapter, next: int, find: Finder, number: Numbering, k: nat)
    requires Sensible(find) && k < |Fragments(c, next, find, number)|
    ensures var fs := Fragments(c, next, find, number);
            fs[0].title == c.title
            && (fs == [c] || Length(fs[k].lines) >= STUB_CHAPTER_MAX_CHARS)
    decreases |c.lines|
  {
    var s := NextSplit(c, next, find, number);
    if s.Some? && k > 0 {
      RightIsShorter(c.lines, s.value);
      NoFragmentIsShort(Chapter(s.value.title, RightSide(c.lines, s.value)), next, find, number, k - 1);
    }
  }

  /** Every fragment but the last leaves a gap to the next chapter's number. */
  lemma {:induction false} GapsOnly(c: Chapter, next: int, find: Finder, number: Numbering, k: nat)
    requires Sensible(find) && k + 1 < |Fragments(c, next, find, number)|
    ensures var n := number(Fragments(c, next, find, number)[k].title); n.Some? && n.value + 1 < next
    decreases |c.lines|
  {
    var s := NextSplit(c, next, find, number);
    if k > 0 {
      RightIsShorter(c.lines, s.value);
      GapsOnly(Chapter(s.value.title, RightSide(c.lines, s.value)), next, find, number, k - 1);
    }
  }

  function LettersIn(fs: seq<Chapter>): string {
    if fs == [] then "" else LettersOf(fs[0].lines) + LettersIn(fs[1..])
  }

  lemma LeftLetters(head: seq<Line>, prefix: Line)
    ensures LettersOf(head + (if prefix == "" then [] else [prefix])) == LettersOf(head) + Letters(prefix)
  {
    if prefix == "" {
      assert head + [] == head;
    } else {
      LastLine(head, prefix);
    }
  }

  lemma RightLetters(first: Line, tail: seq<Line>)
    ensures LettersOf([first] + tail) == Letters(first) + LettersOf(tail)
  {
    LinesAppend([first], tail);
    LastLine([], first);
    assert [] + [first] == [first];
  }

  lemma LettersAround(lines: seq<Line>, at: nat)
    requires at < |lines|
    ensures LettersOf(lines) == LettersOf(lines[..at]) + (Letters(lines[at]) + LettersOf(lines[at + 1..]))
  {
    assert lines == lines[..at] + ([lines[at]] + lines[at + 1..]);
    LinesAppend(lines[..at], [lines[at]] + lines[at + 1..]);
    RightLetters(lines[at], lines[at + 1..]);
  }

  lemma SidesKeepLetters(lines: seq<Line>, s: Split)
    requires s.at < |lines|
    ensures LettersOf(LeftSide(lines, s)) == LettersOf(lines[..s.at]) + Letters(s.prefix)
    ensures LettersOf(RightSide(lines, s)) == Letters(s.first) + LettersOf(lines[s.at + 1..])
  {
    CleanKeepsLetters(lines[..s.at] + (if s.prefix == "" then [] else [s.prefix]));
    CleanKeepsLetters([s.first] + lines[s.at + 1..]);
    LeftLetters(lines[..s.at], s.prefix);
    RightLetters(s.first, lines[s.at + 1..]);
  }

  lemma SplitKeepsLetters(lines: seq<Line>, s: Split)
    requires Proper(lines, s)
    ensures IsWithin(LettersOf(lines), LettersOf(LeftSide(lines, s)) + LettersOf(RightSide(lines, s)))
  {
    var a, b, line := LettersOf(lines[..s.at]), LettersOf(lines[s.at + 1..]), Letters(lines[s.at]);
    LettersAround(lines, s.at);
    SidesKeepLetters(lines, s);
    assert LettersOf(lines) == a + (line + b);
    assert LettersOf(LeftSide(lines, s)) + LettersOf(RightSide(lines, s))
             == (a + Letters(s.prefix)) + (Letters(s.first) + b);
    WithinPieces(a, line, b, Letters(s.prefix), Letters(s.first));
  }

  lemma WithinPieces(a: string, line: string, b: string, prefix: string, first: string)
    requires IsWithin(line, prefix + first)
    ensures IsWithin(a + (line + b), (a + prefix) + (first + b))
  {
    WithinItself(a);
    WithinItself(b);
    WithinBoth(line, prefix + first, b, b);
    WithinBoth(a, a, line + b, (prefix + first) + b);
    FourPieces(a, prefix, first, b);
  }

  lemma FourPieces(a: string, b: string, c: string, d: string)
    ensures a + ((b + c) + d) == (a + b) + (c + d)
  {
  }

  /** Cutting a chapter loses none of its letters and keeps their order. */
  lemma {:induction false} FragmentsKeepLetters(c: Chapter, next: int, find: Finder, number: Numbering)
    requires Sensible(find)
    ensures IsWithin(LettersOf(c.lines), LettersIn(Fragments(c, next, find, number)))
    decreases |c.lines|
  {
    var s := NextSplit(c, next, find, number);
    var fs := Fragments(c, next, find, number);
    if s.None? {
      WithinItself(LettersOf(c.lines));
      assert fs[1..] == [] && LettersIn(fs) == LettersOf(c.lines) + "";
      assert LettersIn(fs) == LettersOf(c.lines);
    } else {
      var right := Chapter(s.value.title, RightSide(c.lines, s.value));
      RightIsShorter(c.lines, s.value);
      FragmentsKeepLetters(right, next, find, number);
      SplitKeepsLetters(c.lines, s.value);
      var left := LettersOf(LeftSide(c.lines, s.value));
      WithinItself(left);
      WithinBoth(left, left, LettersOf(right.lines), LettersIn(fs[1..]));
      WithinThrough(LettersOf(c.lines), left + LettersOf(right.lines), left + LettersIn(fs[1..]));
    }
  }
}
