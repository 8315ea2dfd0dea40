/** Which sources leave the placeholders of a prompt alone (ensure_source_excerpt_in_prompt,
    app/compiler.py): exactly those none of whose windows reads like a stretch of a protected
    body that reaches into a placeholder. */
module HarmlessSources {
  import opened OverlapSpans
  import opened PlaceholderTexts
  import opened VerbatimLines
  import opened ExcerptSplice

  const WINDOW: nat := SOURCE_EXCERPT_MIN_OVERLAP

  predicate MarksBelow(t: Text, n: nat) {
    forall k :: 0 <= k < |t| && t[k].Mark? ==> t[k].index < n
  }

  /** The indices below `n` have fewer digits than a window has characters, as those of any
      list with less than 10^23 lines have. */
  predicate ShortBelow(n: nat) {
    forall i :: 0 <= i < n ==> |Decimal(i)| < WINDOW
  }

  ghost predicate InsideAt(w: string, i: nat, r: nat) {
    r + |w| <= |Token(i)| && w == Token(i)[r..r + |w|]
  }

  /** The end of a placeholder, text without underscores, the beginning of a placeholder; each
      of the three may be empty. */
  ghost predicate AcrossAt(w: string, a: nat, b: nat, i: nat, j: nat) {
    a <= b <= |w| && EndOf(w[..a], Token(i)) && Bare(w[a..b]) && w[b..] <= Token(j)
  }

  /** The window reads like a stretch of a body that reaches into the placeholder of one of the
      first `n` lines. */
  ghost predicate Breaks(w: string, n: nat) {
    && !Bare(w)
    && ((exists i: nat, r: nat :: i < n && InsideAt(w, i, r))
        || (exists a: nat, b: nat, i: nat, j: nat :: i < n && j < n && AcrossAt(w, a, b, i, j)))
  }

  /** No window of the source does. */
  ghost predicate Harmless(excerpt: string, n: nat) {
    forall w :: |w| == WINDOW && Occurs(w, excerpt) ==> !Breaks(w, n)
  }

  // ----- The same with bodies -----

  /** The source holds the window at `p` of the body, which reaches into a placeholder. */
  ghost predicate Snag(t: Text, p: nat, excerpt: string) {
    SnagIn(Render(t), p, excerpt)
  }

  ghost predicate SnagIn(body: string, p: nat, excerpt: string) {
    p + WINDOW <= |body| && Scored(body[p..p + WINDOW]) && Occurs(body[p..p + WINDOW], excerpt)
  }

  predicate Scored(s: string) {
    !Bare(s)
  }

  ghost predicate Smooth(excerpt: string, n: nat) {
    forall t, p :: BareText(t) && MarksBelow(t, n) ==> !Snag(t, p, excerpt)
  }

  // ----- Such a source keeps to the characters -----

  lemma {:induction false} CharsBelowScore(t: Text, n: nat)
    requires n <= |Render(t)| && Bare(Render(t)[..n])
    ensures AllChars(t, n)
  {
    if n > 0 {
      RenderFront(t);
      assert Render(t)[..n][0] == Render(t)[0];
      assert Render(t)[1..][..n - 1] == Render(t)[..n][1..];
      CharsBelowScore(t[1..], n - 1);
    }
  }

  lemma ScoreInWindow(t: Text, r: nat)
    requires t != [] && t[0].Mark? && |Decimal(t[0].index)| < WINDOW
    requires r < |Token(t[0].index)| && r + WINDOW <= |Render(t)|
    ensures !Bare(Render(t)[r..r + WINDOW])
  {
    var x := NextScore(t[0].index, r);
    assert Render(t)[r..r + WINDOW][x - r] == Render(t)[x] == Token(t[0].index)[x];
  }

  lemma {:induction false} SmoothIsClear(t: Text, excerpt: string, n: nat)
    requires Smooth(excerpt, n) && ShortBelow(n) && BareText(t) && MarksBelow(t, n)
    ensures Clear(t, excerpt, WINDOW)
  {
    if t != [] {
      SmoothIsClear(t[1..], excerpt, n);
      if t[0].Mark? {
        forall r | 0 <= r < |Token(t[0].index)| ensures !Hit(Render(t), excerpt, WINDOW, r) {
          assert !Snag(t, r, excerpt);
          if Hit(Render(t), excerpt, WINDOW, r) {
            ScoreInWindow(t, r);
          }
        }
      } else if Hit(Render(t), excerpt, WINDOW, 0) {
        assert !Snag(t, 0, excerpt);
        assert Render(t)[0..0 + WINDOW] == Render(t)[..WINDOW];
        CharsBelowScore(t, WINDOW);
      }
    }
  }

  // ----- Trimming a text to what a snag touches -----

  ghost predicate Tight(t: Text, p: nat) {
    t != [] && p < |RenderOne(t[0])| && |Render(t[..|t| - 1])| < p + WINDOW
  }

  /** Nowhere a window of characters only. */
  predicate NoRun(t: Text) {
    forall q :: 0 <= q <= |t| ==> !AllChars(t[q..], WINDOW)
  }

  lemma {:induction false} AtLeastItsSymbols(t: Text)
    ensures |Render(t)| >= |t|
  {
    if t != [] {
      AtLeastItsSymbols(t[1..]);
    }
  }

  lemma SplitRender(t: Text, k: nat)
    requires k <= |t|
    ensures Render(t) == Render(t[..k]) + Render(t[k..])
  {
    assert t == t[..k] + t[k..];
    RenderAppend(t[..k], t[k..]);
  }

  lemma SliceBehind<T>(a: seq<T>, b: seq<T>, p: nat, n: nat)
    requires |a| <= p && p + n <= |a| + |b|
    ensures (a + b)[p..p + n] == b[p - |a|..p - |a| + n]
  {
  }

  lemma RenderedBehind(t: Text, p: nat)
    requires t != [] && |RenderOne(t[0])| <= p && p + WINDOW <= |Render(t)|
    ensures var q := p - |RenderOne(t[0])|; Render(t)[p..p + WINDOW] == Render(t[1..])[q..q + WINDOW]
  {
    var a, b := RenderOne(t[0]), Render(t[1..]);
    SliceBehind(a, b, p, WINDOW);
  }

  lemma SnagBehind(x: string, y: string, p: nat, excerpt: string)
    requires SnagIn(x + y, p, excerpt) && |x| <= p
    ensures SnagIn(y, p - |x|, excerpt)
  {
    SliceBehind(x, y, p, WINDOW);
  }

  lemma SnagBefore(x: string, y: string, p: nat, excerpt: string)
    requires SnagIn(x + y, p, excerpt) && p + WINDOW <= |x|
    ensures SnagIn(x, p, excerpt)
  {
    assert (x + y)[p..p + WINDOW] == x[p..p + WINDOW];
  }

  lemma DropFirst(t: Text, p: nat, excerpt: string)
    requires t != [] && Snag(t, p, excerpt) && p >= |RenderOne(t[0])|
    ensures Snag(t[1..], p - |RenderOne(t[0])|, excerpt)
  {
    var x, y := RenderOne(t[0]), Render(t[1..]);
    assert Render(t) == x + y;
    SnagBehind(x, y, p, excerpt);
  }

  lemma DropLast(t: Text, p: nat, excerpt: string)
    requires t != [] && Snag(t, p, excerpt) && p + WINDOW <= |Render(t[..|t| - 1])|
    ensures Snag(t[..|t| - 1], p, excerpt)
  {
    SplitRender(t, |t| - 1);
    SnagBefore(Render(t[..|t| - 1]), Render(t[|t| - 1..]), p, excerpt);
  }

  lemma {:induction false} Trim(t: Text, p: nat, excerpt: string, n: nat) returns (u: Text, q: nat)
    requires Snag(t, p, excerpt) && BareText(t) && MarksBelow(t, n)
    ensures Snag(u, q, excerpt) && BareText(u) && MarksBelow(u, n) && Tight(u, q)
    decreases |t|
  {
    if p >= |RenderOne(t[0])| {
      DropFirst(t, p, excerpt);
      u, q := Trim(t[1..], p - |RenderOne(t[0])|, excerpt, n);
    } else if p + WINDOW <= |Render(t[..|t| - 1])| {
      DropLast(t, p, excerpt);
      u, q := Trim(t[..|t| - 1], p, excerpt, n);
    } else {
      u, q := t, p;
    }
  }

  /** Between the first and the last symbol there is less than a window. */
  lemma TightIsShort(t: Text, p: nat, q: nat)
    requires Tight(t, p) && 0 < q < |t|
    ensures |t| - q < WINDOW
  {
    var init := t[..|t| - 1];
    SplitRender(init, q);
    SplitRender(init[..q], 1);
    assert init[..q][..1] == [t[0]];
    AtLeastItsSymbols(init[q..]);
  }

  lemma CharsRenderBare(t: Text)
    requires AllChars(t, |t|) && BareText(t)
    ensures Bare(Render(t))
  {
    var s := CharsAreLifted(t, |t|);
    assert t[..|t|] == t;
    RenderLifted(s);
    assert forall k :: 0 <= k < |s| ==> t[k] == Lift(s)[k] == Char(s[k]);
  }

  lemma TightHasNoRun(t: Text, p: nat, excerpt: string)
    requires Tight(t, p) && Snag(t, p, excerpt) && BareText(t)
    ensures NoRun(t) && |t| <= WINDOW
  {
    if |t| > 1 {
      TightIsShort(t, p, 1);
    }
    forall q | 0 <= q <= |t| ensures !AllChars(t[q..], WINDOW) {
      if AllChars(t[q..], WINDOW) {
        assert q == 0 && t[0..] == t[..WINDOW] == t;
        CharsRenderBare(t);
      }
    }
  }

  lemma NoRunIsClean(t: Text, excerpt: string)
    requires NoRun(t)
    ensures Clean(t, Lift(excerpt), WINDOW)
  {
    forall q: nat ensures !Hit(t, Lift(excerpt), WINDOW, q) {
      if Hit(t, Lift(excerpt), WINDOW, q) {
        var piece := t[q..q + WINDOW];
        var i: nat :| OccursAt(piece, Lift(excerpt), i);
        forall k | 0 <= k < WINDOW ensures t[q..][k].Char? {
          assert piece[k] == Lift(excerpt)[i..i + WINDOW][k] == Lift(excerpt)[i + k];
        }
        assert AllChars(t[q..], WINDOW);
      }
    }
  }

  lemma {:induction false} EveryWindowIsScored(t: Text, n: nat, q: nat)
    requires NoRun(t) && MarksBelow(t, n) && ShortBelow(n) && q + WINDOW <= |Render(t)|
    ensures !Bare(Render(t)[q..q + WINDOW])
  {
    var k := |RenderOne(t[0])|;
    assert t[0..] == t;
    if q >= k {
      forall r | 0 <= r <= |t[1..]| ensures !AllChars(t[1..][r..], WINDOW) {
        assert t[1..][r..] == t[r + 1..];
      }
      EveryWindowIsScored(t[1..], n, q - k);
      RenderedBehind(t, q);
    } else if t[0].Mark? {
      ScoreInWindow(t, q);
    } else if Bare(Render(t)[q..q + WINDOW]) {
      assert Render(t)[q..q + WINDOW] == Render(t)[..WINDOW];
      CharsBelowScore(t, WINDOW);
    }
  }

  lemma {:induction false} ShortIsChars(t: Text)
    requires |Render(t)| <= WINDOW
    ensures AllChars(t, |t|)
  {
    if t != [] {
      ShortIsChars(t[1..]);
    }
  }

  lemma MiddleIsBare(t: Text, p: nat)
    requires Tight(t, p) && BareText(t) && |t| >= 2
    ensures var middle := Render(t[1..|t| - 1]);
            && Bare(middle) && |RenderOne(t[0])| + |middle| < p + WINDOW
            && Render(t) == RenderOne(t[0]) + middle + RenderOne(t[|t| - 1])
  {
    var init, middle, last := t[..|t| - 1], t[1..|t| - 1], t[|t| - 1..];
    assert init == [t[0]] + middle && t == init + last;
    RenderAppend([t[0]], middle);
    RenderAppend(init, last);
    assert last == [t[|t| - 1]] && last[1..] == [];
    assert [t[0]][1..] == [];
    ShortIsChars(middle);
    CharsRenderBare(middle);
  }

  lemma ThreeParts(x: string, m: string, y: string, p: nat) returns (a: string, b: string)
    requires p < |x| && |x| + |m| < p + WINDOW <= |x| + |m| + |y|
    ensures a == x[p..] && b <= y && b != "" && (x + m + y)[p..p + WINDOW] == a + m + b
  {
    a, b := x[p..], y[..p + WINDOW - |x| - |m|];
  }

  lemma OneSymbolBreaks(t: Text, p: nat, excerpt: string, n: nat)
    requires |t| == 1 && Snag(t, p, excerpt) && MarksBelow(t, n)
    ensures Breaks(Render(t)[p..p + WINDOW], n)
  {
    assert t[1..] == [] && Render(t) == RenderOne(t[0]) && t[0].Mark?;
    assert InsideAt(Render(t)[p..p + WINDOW], t[0].index, p);
  }

  lemma ManySymbolsBreak(t: Text, p: nat, w: string, n: nat)
    requires Tight(t, p) && BareText(t) && MarksBelow(t, n) && |t| >= 2
    requires p + WINDOW <= |Render(t)| && w == Render(t)[p..p + WINDOW] && Scored(w)
    ensures Breaks(w, n)
  {
    var x, m, y := RenderOne(t[0]), Render(t[1..|t| - 1]), RenderOne(t[|t| - 1]);
    MiddleIsBare(t, p);
    var a, b := ThreeParts(x, m, y, p);
    PartsBreak(t[0], t[|t| - 1], w, a, m, b, n);
  }

  /** What the source has of a trimmed body is such a window. */
  lemma TightBreaks(t: Text, p: nat, excerpt: string, n: nat)
    requires Tight(t, p) && Snag(t, p, excerpt) && BareText(t) && MarksBelow(t, n)
    ensures Breaks(Render(t)[p..p + WINDOW], n)
  {
    if |t| == 1 {
      OneSymbolBreaks(t, p, excerpt, n);
    } else {
      ManySymbolsBreak(t, p, Render(t)[p..p + WINDOW], n);
    }
  }

  lemma AcrossBreaks(w: string, a: string, m: string, b: string, i: nat, j: nat, n: nat)
    requires w == a + m + b && Scored(w) && i < n && j < n
    requires EndOf(a, Token(i)) && Bare(m) && b <= Token(j)
    ensures Breaks(w, n)
  {
    assert w[..|a|] == a && w[|a|..|a| + |m|] == m && w[|a| + |m|..] == b;
    assert AcrossAt(w, |a|, |a| + |m|, i, j);
  }

  lemma EmptyEnds(a: string, m: string, b: string)
    ensures a + m + b == a + (m + b) + "" == "" + (a + m) + b
  {
  }

  lemma NextToChar(s: string, m: string, c: char)
    requires c != '_' && Bare(m) && (s <= [c] || EndOf(s, [c]))
    ensures Bare(s + m) && Bare(m + s)
  {
    assert forall k :: 0 <= k < |s| ==> s[k] == c;
  }

  lemma PartsBreak(first: Symbol, last: Symbol, w: string, a: string, m: string, b: string, n: nat)
    requires w == a + m + b && Scored(w) && Bare(m) && EndOf(a, RenderOne(first)) && b <= RenderOne(last)
    requires BareText([first]) && BareText([last]) && MarksBelow([first], n) && MarksBelow([last], n)
    ensures Breaks(w, n)
  {
    assert [first][0] == first && [last][0] == last;
    EmptyEnds(a, m, b);
    match (first, last)
    case (Mark(i), Mark(j)) => AcrossBreaks(w, a, m, b, i, j, n);
    case (Mark(i), Char(d)) =>
      NextToChar(b, m, d);
      AcrossBreaks(w, a, m + b, "", i, i, n);
    case (Char(c), Mark(j)) =>
      NextToChar(a, m, c);
      AcrossBreaks(w, "", a + m, b, j, j, n);
    case (Char(c), Char(d)) =>
      NextToChar(a, m, c);
      NextToChar(b, a + m, d);
  }

  function BodyAround(i: nat, middle: string, j: nat): Text {
    [Mark(i)] + Lift(middle) + [Mark(j)]
  }

  lemma BodyAroundReads(i: nat, middle: string, j: nat)
    ensures Render(BodyAround(i, middle, j)) == Token(i) + middle + Token(j)
  {
    RenderAppend([Mark(i)] + Lift(middle), [Mark(j)]);
    RenderAppend([Mark(i)], Lift(middle));
    RenderLifted(middle);
    assert [Mark(i)][1..] == [] && [Mark(j)][1..] == [];
  }

  lemma BodyAroundIsBare(i: nat, middle: string, j: nat, n: nat)
    requires Bare(middle) && i < n && j < n
    ensures BareText(BodyAround(i, middle, j)) && MarksBelow(BodyAround(i, middle, j), n)
  {
    var t := BodyAround(i, middle, j);
    assert t[0] == Mark(i) && t[|t| - 1] == Mark(j);
    assert forall k :: 1 <= k < |t| - 1 ==> t[k] == Lift(middle)[k - 1] == Char(middle[k - 1]);
  }

  lemma WindowAround(w: string, a: nat, b: nat, x: string, y: string)
    requires a <= b <= |w| && EndOf(w[..a], x) && w[b..] <= y
    ensures |x| - a + |w| <= |x + w[a..b] + y| && (x + w[a..b] + y)[|x| - a..|x| - a + |w|] == w
  {
    var p, whole := |x| - a, x + w[a..b] + y;
    assert whole[p..|x|] == x[p..] == w[..a];
    assert whole[|x|..|x| + b - a] == w[a..b];
    assert whole[|x| + b - a..p + |w|] == y[..|w| - b] == w[b..];
    assert whole[p..p + |w|] == whole[p..|x|] + whole[|x|..|x| + b - a] + whole[|x| + b - a..p + |w|];
    assert w == w[..a] + w[a..b] + w[b..];
  }

  lemma SnagOfWindow(body: string, p: nat, w: string, excerpt: string)
    requires |w| == WINDOW && !Bare(w) && Occurs(w, excerpt)
    requires p + |w| <= |body| && body[p..p + |w|] == w
    ensures SnagIn(body, p, excerpt)
  {
  }

  lemma InsideSnags(w: string, excerpt: string, n: nat, i: nat, r: nat)
    requires |w| == WINDOW && !Bare(w) && Occurs(w, excerpt) && i < n && InsideAt(w, i, r)
    ensures BareText([Mark(i)]) && MarksBelow([Mark(i)], n) && Snag([Mark(i)], r, excerpt)
  {
    assert [Mark(i)][1..] == [] && Render([Mark(i)]) == Token(i);
    SnagOfWindow(Token(i), r, w, excerpt);
  }

  lemma AcrossSnags(w: string, excerpt: string, n: nat, a: nat, b: nat, i: nat, j: nat)
    returns (t: Text, p: nat)
    requires |w| == WINDOW && !Bare(w) && Occurs(w, excerpt) && i < n && j < n && AcrossAt(w, a, b, i, j)
    ensures BareText(t) && MarksBelow(t, n) && Snag(t, p, excerpt)
  {
    var middle := w[a..b];
    t, p := BodyAround(i, middle, j), |Token(i)| - a;
    BodyAroundReads(i, middle, j);
    BodyAroundIsBare(i, middle, j, n);
    WindowAround(w, a, b, Token(i), Token(j));
    SnagOfWindow(Token(i) + middle + Token(j), p, w, excerpt);
  }

  /** Any such window is what a source can have of a body. */
  lemma BreaksSnags(w: string, excerpt: string, n: nat) returns (t: Text, p: nat)
    requires |w| == WINDOW && Occurs(w, excerpt) && Breaks(w, n)
    ensures BareText(t) && MarksBelow(t, n) && Snag(t, p, excerpt)
  {
    if i: nat, r: nat :| i < n && InsideAt(w, i, r) {
      InsideSnags(w, excerpt, n, i, r);
      t, p := [Mark(i)], r;
    } else {
      var a: nat, b: nat, i: nat, j: nat :| i < n && j < n && AcrossAt(w, a, b, i, j);
      t, p := AcrossSnags(w, excerpt, n, a, b, i, j);
    }
  }

  lemma HarmlessIsSmooth(excerpt: string, n: nat)
    ensures Harmless(excerpt, n) <==> Smooth(excerpt, n)
  {
    if Harmless(excerpt, n) {
      forall t, p: nat | BareText(t) && MarksBelow(t, n) ensures !Snag(t, p, excerpt) {
        if Snag(t, p, excerpt) {
          var u, q := Trim(t, p, excerpt, n);
          TightBreaks(u, q, excerpt, n);
        }
      }
    } else {
      var w :| |w| == WINDOW && Occurs(w, excerpt) && Breaks(w, n);
      var t, p := BreaksSnags(w, excerpt, n);
    }
  }

  // ----- Lines that occur nowhere else -----

  /** The characters of a text. */
  function CharsOf(t: Text): (s: string)
    ensures |s| <= |t| && forall k :: 0 <= k < |t| && t[k].Char? ==> t[k].c in s
  {
    if t == [] then "" else (if t[0].Char? then [t[0].c] else []) + CharsOf(t[1..])
  }

  /** Among `|s| + 1` characters in a row there is one that `s` does not have. */
  lemma {:induction false} FreshChar(s: string, k: nat) returns (c: char)
    requires k + |s| < 0xD800
    ensures k <= c as int <= k + |s| && c !in s
    decreases |s|
  {
    if k as char !in s {
      c := k as char;
    } else {
      var i :| 0 <= i < |s| && s[i] == k as char;
      var rest := s[..i] + s[i + 1..];
      c := FreshChar(rest, k + 1);
      assert forall x :: 0 <= x < |s| && x != i ==> s[x] in rest by {
        forall x | 0 <= x < |s| && x != i ensures s[x] in rest {
          assert s[x] == rest[if x < i then x else x - 1];
        }
      }
    }
  }

  function LineOf(k: nat, c: char, d: char): (s: string)
    ensures |s| == k + 2 && s[0] == d && s[k + 1] == d
    ensures forall x :: 1 <= x <= k ==> s[x] == c
  {
    [d] + seq(k, i => c) + [d]
  }

  function FreshLines(n: nat, c: char, d: char): (lines: seq<string>)
    ensures |lines| == n && forall i :: 0 <= i < n ==> lines[i] == LineOf(n - i, c, d)
  {
    seq(n, i requires 0 <= i < n => LineOf(n - i, c, d))
  }

  /** Two characters that neither the text nor the placeholders nor the stock phrase has. */
  predicate Apart(t: Text, c: char, d: char) {
    && c != d && 0x400 <= c as int < 0x1000 && 0x400 <= d as int < 0x1000
    && forall k :: 0 <= k < |t| && t[k].Char? ==> t[k].c != c && t[k].c != d
  }

  /** The text with every placeholder written as its line. */
  function Flat(t: Text, lines: seq<string>): string
    requires MarksBelow(t, |lines|)
  {
    if t == [] then "" else (if t[0].Mark? then lines[t[0].index] else [t[0].c]) + Flat(t[1..], lines)
  }

  function From(i: nat, n: nat): (s: set<nat>)
    ensures forall j: nat :: j in s <==> i <= j < n
    decreases n - i
  {
    if i >= n then {} else {i} + From(i + 1, n)
  }

  lemma LiftAppend(a: string, b: string)
    ensures Lift(a + b) == Lift(a) + Lift(b)
  {
  }

  lemma {:induction false} FlatIsExpanded(t: Text, lines: seq<string>)
    requires MarksBelow(t, |lines|)
    ensures Lift(Flat(t, lines)) == Expand(t, lines, From(0, |lines|))
  {
    if t != [] {
      FlatIsExpanded(t[1..], lines);
      LiftAppend(if t[0].Mark? then lines[t[0].index] else [t[0].c], Flat(t[1..], lines));
      assert t[0].Char? ==> Lift([t[0].c]) == [t[0]];
    }
  }

  lemma FrontIsNotInner(t: Text, n: nat, c: char, d: char, done: set<nat>)
    requires Apart(t, c, d)
    ensures var u := Expand(t, FreshLines(n, c, d), done); u != [] ==> u[0] != Char(c)
  {
  }

  /** No line starts in a shorter one with something else behind it. */
  lemma LongerStartsNowhere(n: nat, c: char, d: char, i: nat, j: nat, rest: Text)
    requires i < j < n && c != d && (rest != [] ==> rest[0] != Char(c))
    ensures NoneStarts(Lift(LineOf(n - j, c, d)), rest, Lift(LineOf(n - i, c, d)))
  {
    var a, line := Lift(LineOf(n - j, c, d)), Lift(LineOf(n - i, c, d));
    forall r | 0 <= r < |a| ensures !(line <= a[r..] + rest) {
      var whole := a[r..] + rest;
      assert line[0] == Char(d) && line[1] == Char(c) && whole[0] == a[r];
      assert r == 0 ==> line[n - j + 1] == Char(c) && whole[n - j + 1] == a[n - j + 1] == Char(d);
      assert r == |a| - 1 && rest != [] ==> whole[1] == rest[0];
    }
  }

  lemma OtherLineStays(n: nat, c: char, d: char, i: nat, j: nat, rest: Text)
    requires i < j < n && c != d && (rest != [] ==> rest[0] != Char(c))
    ensures var lines := FreshLines(n, c, d);
            Replace(Lift(lines[j]) + rest, Lift(lines[i]), [Mark(i)])
              == Lift(lines[j]) + Replace(rest, Lift(lines[i]), [Mark(i)])
  {
    LongerStartsNowhere(n, c, d, i, j, rest);
    SkipStretch(Lift(LineOf(n - j, c, d)), rest, Lift(LineOf(n - i, c, d)), [Mark(i)]);
  }

  /** One round of the first loop: the longest line still there gives way to its placeholder. */
  lemma {:induction false} LineGivesWay(t: Text, n: nat, c: char, d: char, i: nat)
    requires Apart(t, c, d) && MarksBelow(t, n) && i < n
    ensures var lines := FreshLines(n, c, d);
            Replace(Expand(t, lines, From(i, n)), Lift(lines[i]), [Mark(i)]) == Expand(t, lines, From(i + 1, n))
  {
    if t != [] {
      var lines := FreshLines(n, c, d);
      var line, rest := Lift(lines[i]), Expand(t[1..], lines, From(i, n));
      LineGivesWay(t[1..], n, c, d, i);
      if t[0].Char? || t[0].index < i {
        assert Spelled(t[0], lines, From(i, n)) == [t[0]] == Spelled(t[0], lines, From(i + 1, n));
        assert line[0] == Char(d) != t[0];
        assert ([t[0]] + rest)[0] == t[0] && ([t[0]] + rest)[1..] == rest;
      } else if t[0].index == i {
        assert Expand(t, lines, From(i, n)) == line + rest;
        assert (line + rest)[|line|..] == rest;
      } else {
        assert Expand(t, lines, From(i, n)) == Lift(lines[t[0].index]) + rest;
        FrontIsNotInner(t[1..], n, c, d, From(i, n));
        OtherLineStays(n, c, d, i, t[0].index, rest);
      }
    }
  }

  /** So protecting the lines in the flat text gives the text. */
  lemma {:induction false} MarkedAgain(t: Text, n: nat, c: char, d: char, i: nat)
    requires Apart(t, c, d) && MarksBelow(t, n) && i <= n
    ensures var lines := FreshLines(n, c, d);
            Marked(Lift(Flat(t, lines)), lines, 0, i) == Expand(t, lines, From(i, n))
  {
    var lines := FreshLines(n, c, d);
    if i == 0 {
      FlatIsExpanded(t, lines);
    } else {
      MarkedAgain(t, n, c, d, i - 1);
      LineGivesWay(t, n, c, d, i - 1);
      var before := Expand(t, lines, From(i - 1, n));
      if !Found(before, lines[i - 1]) {
        NotInside(before, Lift(lines[i - 1]), [Mark(i - 1)]);
      }
    }
  }

  lemma TokenIsPlain(i: nat)
    ensures forall k :: 0 <= k < |Token(i)| ==> Token(i)[k] as int < 128
  {
    var t := Token(i);
    forall k | 0 <= k < |t| ensures t[k] as int < 128 {
      assert k < 25 ==> t[k] == Letter(k);
    }
  }

  lemma ForeignLineNotInside(t: string, line: string)
    requires line != "" && line[0] !in t
    ensures !Contains(t, line)
  {
    ContainsOccurs(t, line);
  }

  predicate AllBare(lines: seq<string>) {
    forall i :: 0 <= i < |lines| ==> Bare(lines[i])
  }

  lemma FreshLinesFit(n: nat, c: char, d: char)
    requires c != d && 0x400 <= c as int < 0x1000 && 0x400 <= d as int < 0x1000
    ensures var lines := FreshLines(n, c, d);
            AllBare(lines) && QuietLines(lines) && LongestFirst(lines) && NoClashFrom(lines, 0)
  {
    var lines := FreshLines(n, c, d);
    forall i | 0 <= i < n ensures Bare(lines[i]) && Quiet(lines[i]) {
      assert forall k :: 0 <= k < |lines[i]| ==> lines[i][k] in {c, d};
      BareIsQuiet(lines[i]);
    }
    forall i, j | 0 <= i < j < n ensures !Contains(Token(i), lines[j]) {
      TokenIsPlain(i);
      ForeignLineNotInside(Token(i), lines[j]);
    }
  }

  lemma {:induction false} FlatIsBare(t: Text, lines: seq<string>)
    requires BareText(t) && AllBare(lines) && MarksBelow(t, |lines|)
    ensures Bare(Flat(t, lines))
  {
    if t != [] {
      FlatIsBare(t[1..], lines);
    }
  }

  // ----- Weighing -----

  /** An underscore weighs two, the ends of the lines seven each. */
  function Weight(s: string, d: char): nat {
    if s == "" then 0 else (if s[0] == '_' then 2 else if s[0] == d then 7 else 0) + Weight(s[1..], d)
  }

  lemma {:induction false} WeightAppend(a: string, b: string, d: char)
    ensures Weight(a + b, d) == Weight(a, d) + Weight(b, d)
  {
    if a == "" {
      assert a + b == b;
    } else {
      assert (a + b)[1..] == a[1..] + b && (a + b)[0] == a[0];
      WeightAppend(a[1..], b, d);
    }
  }

  lemma {:induction false} NoWeight(s: string, d: char)
    requires Bare(s) && d !in s
    ensures Weight(s, d) == 0
  {
    if s != "" {
      NoWeight(s[1..], d);
    }
  }

  lemma {:induction false} ScoreWeighs(s: string, d: char)
    requires !Bare(s)
    ensures Weight(s, d) >= 2
  {
    if s[0] != '_' {
      assert '_' in s[1..];
      ScoreWeighs(s[1..], d);
    }
  }

  /** Words without underscores, each behind one. */
  lemma WordWeighs(s: string, rest: string, d: char)
    requires Bare(s) && d !in s
    ensures Weight(s + "_" + rest, d) == 2 + Weight(rest, d)
  {
    NoWeight(s, d);
    WeightAppend(s, "_", d);
    WeightAppend(s + "_", rest, d);
    assert Weight("_", d) == 2 + Weight("_"[1..], d);
  }

  lemma TailWeighs(i: nat, d: char)
    requires d as int >= 128
    ensures Weight(Token(i)[25..], d) == 4
  {
    var digits := Decimal(i);
    assert Token(i)[25..] == digits + "_" + ("" + "_" + "");
    WordWeighs(digits, "" + "_" + "", d);
    WordWeighs("", "", d);
  }

  lemma {:induction false} TokenWeighsFrom(i: nat, d: char, k: nat)
    requires d as int >= 128 && k <= 25
    ensures Weight(Token(i)[k..], d)
              == 4 + (if k <= 0 then 2 else 0) + (if k <= 1 then 2 else 0) + (if k <= 7 then 2 else 0)
                 + (if k <= 15 then 2 else 0) + (if k <= 24 then 2 else 0)
    decreases 25 - k
  {
    if k == 25 {
      TailWeighs(i, d);
    } else {
      TokenWeighsFrom(i, d, k + 1);
      assert Token(i)[k..][0] == Token(i)[k] == Letter(k) && Token(i)[k..][1..] == Token(i)[k + 1..];
    }
  }

  lemma TokenWeighs(i: nat, d: char)
    requires d as int >= 128
    ensures Weight(Token(i), d) == 14
  {
    TokenWeighsFrom(i, d, 0);
    assert Token(i)[0..] == Token(i);
  }

  lemma LineWeighs(k: nat, c: char, d: char)
    requires c != d && c != '_' && d != '_'
    ensures Weight(LineOf(k, c, d), d) == 14
  {
    var s, inner := LineOf(k, c, d), LineOf(k, c, d)[1..k + 1];
    assert s == [d] + inner + [d];
    NoWeight(inner, d);
    WeightAppend([d], inner, d);
    WeightAppend([d] + inner, [d], d);
    assert Weight([d], d) == 7 + Weight([d][1..], d);
  }

  lemma {:induction false} ReplaceWeighs(t: string, part: string, put: string, d: char)
    requires part != "" && Weight(part, d) == Weight(put, d)
    ensures Weight(Replace(t, part, put), d) == Weight(t, d)
  {
    if t != "" {
      if part <= t {
        ReplaceWeighs(t[|part|..], part, put, d);
        WeightAppend(put, Replace(t[|part|..], part, put), d);
        assert t == part + t[|part|..];
        WeightAppend(part, t[|part|..], d);
      } else {
        ReplaceWeighs(t[1..], part, put, d);
        WeightAppend([t[0]], Replace(t[1..], part, put), d);
        WeightAppend([t[0]], t[1..], d);
        assert t == [t[0]] + t[1..];
      }
    }
  }

  lemma {:induction false} PutBackWeighs(body: string, swaps: seq<Swap>, d: char)
    requires forall k :: 0 <= k < |swaps| ==>
               swaps[k].token != "" && Weight(swaps[k].token, d) == Weight(swaps[k].line, d)
    ensures Weight(PutBack(body, swaps), d) == Weight(body, d)
  {
    if swaps != [] {
      var last := swaps[|swaps| - 1];
      PutBackWeighs(body, swaps[..|swaps| - 1], d);
      ReplaceWeighs(PutBack(body, swaps[..|swaps| - 1]), last.token, last.line, d);
    }
  }

  lemma {:induction false} SwapsAre(t: Text, lines: seq<string>, i: nat, k: nat)
    requires i <= |lines| && k < |Swaps(t, lines, 0, i)|
    ensures exists j :: 0 <= j < i && Swaps(t, lines, 0, i)[k] == Swap(Token(j), lines[j])
  {
    var before := Swaps(t, lines, 0, i - 1);
    if k < |before| {
      SwapsAre(t, lines, i - 1, k);
      assert Swaps(t, lines, 0, i)[k] == before[k];
    } else {
      assert Swaps(t, lines, 0, i)[k] == Swap(Token(i - 1), lines[i - 1]);
    }
  }

  lemma SwapsWeigh(t: Text, n: nat, c: char, d: char)
    requires c != d && c as int >= 128 && d as int >= 128
    ensures var swaps := Swaps(t, FreshLines(n, c, d), 0, n);
            forall k :: 0 <= k < |swaps| ==> Weight(swaps[k].token, d) == Weight(swaps[k].line, d)
  {
    var lines := FreshLines(n, c, d);
    var swaps := Swaps(t, lines, 0, n);
    forall k | 0 <= k < |swaps| ensures Weight(swaps[k].token, d) == Weight(swaps[k].line, d) {
      SwapsAre(t, lines, n, k);
      var j :| 0 <= j < n && swaps[k] == Swap(Token(j), lines[j]);
      TokenWeighs(j, d);
      LineWeighs(n - j, c, d);
    }
  }

  lemma {:induction false} FlatWeighs(t: Text, n: nat, c: char, d: char)
    requires MarksBelow(t, n) && c != d && c as int >= 128 && d as int >= 128
    ensures Weight(Flat(t, FreshLines(n, c, d)), d) == Weight(Render(t), d)
  {
    if t != [] {
      var lines := FreshLines(n, c, d);
      FlatWeighs(t[1..], n, c, d);
      if t[0].Mark? {
        TokenWeighs(t[0].index, d);
        LineWeighs(n - t[0].index, c, d);
      }
      WeightAppend(if t[0].Mark? then lines[t[0].index] else [t[0].c], Flat(t[1..], lines), d);
      WeightAppend(RenderOne(t[0]), Render(t[1..]), d);
    }
  }

  predicate ScoredAt(u: string, q: nat) {
    q + WINDOW <= |u| ==> Scored(u[q..q + WINDOW])
  }

  ghost predicate AllScored(u: string) {
    forall q: nat :: ScoredAt(u, q)
  }

  lemma ScoredBehind(u: string, k: nat)
    requires AllScored(u) && k <= |u|
    ensures AllScored(u[k..])
  {
    forall q: nat ensures ScoredAt(u[k..], q) {
      assert ScoredAt(u, k + q);
      assert q + WINDOW <= |u[k..]| ==> u[k..][q..q + WINDOW] == u[k + q..k + q + WINDOW];
    }
  }

  /** Where every window has an underscore, what the scan takes weighs something. */
  lemma {:induction false} ScanLowers(u: string, source: string, put: string, d: char)
    requires AllScored(u) && Weight(put, d) == 0
    ensures Weight(Scan(u, source, WINDOW, put), d) <= Weight(u, d)
    ensures Longest(u, 0, source, 0) >= WINDOW ==> Weight(Scan(u, source, WINDOW, put), d) < Weight(u, d)
    decreases |u|
  {
    if u != "" {
      var n := Longest(u, 0, source, 0);
      var k := if n >= WINDOW then n else 1;
      ScoredBehind(u, k);
      ScanLowers(u[k..], source, put, d);
      assert u == u[..k] + u[k..];
      WeightAppend(u[..k], u[k..], d);
      if n >= WINDOW {
        WeightAppend(put, Scan(u[n..], source, WINDOW, put), d);
        assert ScoredAt(u, 0);
        assert forall x :: 0 <= x < WINDOW ==> u[0..0 + WINDOW][x] == u[..n][x];
        ScoreWeighs(u[..n], d);
      } else {
        assert u[..1] == [u[0]];
        WeightAppend([u[0]], Scan(u[1..], source, WINDOW, put), d);
      }
    }
  }

  lemma {:induction false} HitLowers(u: string, source: string, put: string, d: char, p: nat)
    requires AllScored(u) && Weight(put, d) == 0 && Hit(u, source, WINDOW, p)
    ensures Weight(Scan(u, source, WINDOW, put), d) < Weight(u, d)
    decreases |u|
  {
    ScanLowers(u, source, put, d);
    if Longest(u, 0, source, 0) < WINDOW {
      if p == 0 {
        LongestIs(u, 0, source, WINDOW);
      } else {
        ScoredBehind(u, 1);
        assert u[1..][p - 1..p - 1 + WINDOW] == u[p..p + WINDOW];
        HitLowers(u[1..], source, put, d, p - 1);
        WeightAppend([u[0]], Scan(u[1..], source, WINDOW, put), d);
        WeightAppend([u[0]], u[1..], d);
        assert u == [u[0]] + u[1..];
      }
    }
  }

  // ----- The exact condition -----

  /** A prompt that the code ought to send as it is: `n` allowed lines that do not clash, no
      underscores, and once the lines are protected nothing of the source in it. */
  ghost predicate Innocent(text: string, lines: seq<string>, excerpt: string, n: nat) {
    && Bare(text) && QuietLines(lines) && LongestFirst(lines) && NoClashFrom(lines, 0) && |lines| == n
    && Clean(Marked(Lift(text), lines, 0, n), Lift(excerpt), WINDOW)
  }

  lemma {:induction false} CleanIsKept<T>(u: seq<T>, source: seq<T>, threshold: nat, put: seq<T>)
    requires threshold >= 1 && Clean(u, source, threshold)
    ensures Scan(u, source, threshold, put) == u
  {
    if u != [] {
      assert !Hit(u, source, threshold, 0);
      if threshold <= |u| {
        LongestIs(u, 0, source, threshold);
      }
      forall q: nat ensures !Hit(u[1..], source, threshold, q) {
        assert !Hit(u, source, threshold, q + 1);
        assert q + 1 + threshold <= |u| ==> u[1..][q..q + threshold] == u[q + 1..q + 1 + threshold];
      }
      CleanIsKept(u[1..], source, threshold, put);
    }
  }

  /** With a harmless source no prompt without underscores is tangled. */
  lemma HarmlessIsUntangled(text: string, excerpt: string, lines: seq<string>)
    requires Bare(text) && QuietLines(lines) && NoClashFrom(lines, 0)
    requires ShortBelow(|lines|) && Harmless(excerpt, |lines|)
    ensures Untangled(text, excerpt, lines)
  {
    var marked, n := Marked(Lift(text), lines, 0, |lines|), |lines|;
    BareIsTokenFree(text);
    BareMarked(Lift(text), lines, 0, n);
    MarkedMarks(Lift(text), lines, 0, n);
    forall k | 0 <= k < |marked| && marked[k].Mark? ensures marked[k].index < n {
      assert marked[k].index in MarksOf(marked);
    }
    HarmlessIsSmooth(excerpt, n);
    SmoothIsClear(marked, excerpt, n);
  }

  /** So every line that a placeholder protects reappears. */
  lemma HarmlessSourceKeepsLines(text: string, excerpt: string, lines: seq<string>, i: nat)
    requires Bare(text) && QuietLines(lines) && NoClashFrom(lines, 0)
    requires ShortBelow(|lines|) && Harmless(excerpt, |lines|) && excerpt != ""
    requires i < |lines| && lines[i] != "" && Contains(Place(text, lines, i).body, lines[i])
    ensures Contains(Sent(text, excerpt, lines), lines[i])
  {
    HarmlessIsUntangled(text, excerpt, lines);
    ProtectedLinesReappear(text, excerpt, lines, i);
  }

  /** A source without underscores is harmless. */
  lemma BareSourceIsHarmless(excerpt: string, n: nat)
    requires Bare(excerpt)
    ensures Harmless(excerpt, n)
  {
    forall w | |w| == WINDOW && Occurs(w, excerpt) ensures !Breaks(w, n) {
      var i: nat :| OccursAt(w, excerpt, i);
      assert forall k :: 0 <= k < |w| ==> w[k] == excerpt[i..i + |w|][k] == excerpt[i + k];
    }
  }

  lemma HarmlessKeeps(text: string, lines: seq<string>, excerpt: string, n: nat)
    requires excerpt != "" && ShortBelow(n) && Harmless(excerpt, n) && Innocent(text, lines, excerpt, n)
    ensures Sent(text, excerpt, lines) == text
  {
    var t := Lift(text);
    var marked, all := Marked(t, lines, 0, n), Indices(t, lines, 0, n);
    HarmlessIsUntangled(text, excerpt, lines);
    SentOnSymbols(text, excerpt, lines);
    CleanIsKept(marked, Lift(excerpt), WINDOW, Lift(REPLACEMENT));
    MarkedExpands(t, lines, 0, n, all);
    LiftedStays(text, lines, all);
    RenderLifted(text);
  }

  /** From a snag, a prompt and lines that the source does harm to. */
  lemma SnagHarms(t: Text, p: nat, excerpt: string, n: nat) returns (text: string, lines: seq<string>)
    requires excerpt != "" && ShortBelow(n) && BareText(t) && MarksBelow(t, n) && Snag(t, p, excerpt)
    ensures Innocent(text, lines, excerpt, n) && Sent(text, excerpt, lines) != text
  {
    var u, q := Trim(t, p, excerpt, n);
    TightHasNoRun(u, q, excerpt);
    var c := FreshChar(CharsOf(u), 0x400);
    var d := FreshChar(CharsOf(u), c as int + 1);
    lines := FreshLines(n, c, d);
    text := Flat(u, lines);
    FreshLinesFit(n, c, d);
    FlatIsBare(u, lines);
    MarkedAgain(u, n, c, d, n);
    assert From(n, n) == {};
    ExpandNone(u, lines);
    NoRunIsClean(u, excerpt);
    SnagIsFelt(u, q, excerpt, n, c, d);
  }

  lemma SnagIsFelt(u: Text, q: nat, excerpt: string, n: nat, c: char, d: char)
    requires excerpt != "" && ShortBelow(n) && Apart(u, c, d) && MarksBelow(u, n) && NoRun(u) && Snag(u, q, excerpt)
    requires var lines := FreshLines(n, c, d);
             && Bare(Flat(u, lines)) && QuietLines(lines) && NoClashFrom(lines, 0)
             && Marked(Lift(Flat(u, lines)), lines, 0, n) == u
    ensures var lines := FreshLines(n, c, d); Sent(Flat(u, lines), excerpt, lines) != Flat(u, lines)
  {
    var lines := FreshLines(n, c, d);
    var text, body := Flat(u, lines), Render(u);
    var swaps := Swaps(Lift(text), lines, 0, n);
    BareIsTokenFree(text);
    PlaceOnSymbols(text, lines, n);
    SplicedIsScanned(body, excerpt);
    forall x: nat ensures ScoredAt(body, x) {
      if x + WINDOW <= |body| {
        EveryWindowIsScored(u, n, x);
      }
    }
    StockPhraseWeighsNothing(d);
    HitLowers(body, excerpt, REPLACEMENT, d, q);
    SwapsWeigh(Lift(text), n, c, d);
    PutBackWeighs(Scan(body, excerpt, WINDOW, REPLACEMENT), swaps, d);
    FlatWeighs(u, n, c, d);
  }

  lemma StockPhraseWeighsNothing(d: char)
    requires 0x400 <= d as int < 0x1000
    ensures Weight(REPLACEMENT, d) == 0
  {
    NoWeight(REPLACEMENT, d);
  }

  /** The code sends every innocent prompt as it is exactly when the source is harmless. */
  lemma HarmlessExact(excerpt: string, n: nat)
    requires excerpt != "" && ShortBelow(n)
    ensures (forall text, lines :: Innocent(text, lines, excerpt, n) ==> Sent(text, excerpt, lines) == text)
              <==> Harmless(excerpt, n)
  {
    HarmlessIsSmooth(excerpt, n);
    if Harmless(excerpt, n) {
      forall text, lines | Innocent(text, lines, excerpt, n) ensures Sent(text, excerpt, lines) == text {
        HarmlessKeeps(text, lines, excerpt, n);
      }
    } else {
      var t, p: nat :| BareText(t) && MarksBelow(t, n) && Snag(t, p, excerpt);
      var text, lines := SnagHarms(t, p, excerpt, n);
      assert Innocent(text, lines, excerpt, n);
    }
  }
}
