/** The overlap finder (source_excerpt_overlap_spans in app/continuity.py): which stretches
    of a text repeat the source, found through an index of the source's windows.

    The text is a sequence of symbols of any kind that can be compared. */
module OverlapSpans {

  const SOURCE_EXCERPT_MIN_OVERLAP: int := 24

  datatype Span = Span(start: nat, end: nat)

  function Threshold(minChars: int): nat {
    if minChars < 1 then 1 else minChars
  }

  // ----- The naive search -----

  predicate OccursAt<T(==)>(part: seq<T>, whole: seq<T>, i: nat) {
    i + |part| <= |whole| && whole[i..i + |part|] == part
  }

  ghost predicate OccursFrom<T>(part: seq<T>, whole: seq<T>, i: nat) {
    exists j: nat :: j >= i && OccursAt(part, whole, j)
  }

  ghost predicate Occurs<T>(part: seq<T>, whole: seq<T>) {
    OccursFrom(part, whole, 0)
  }

  /** How far the text at `c` and the source at `i` agree. */
  function Agreement<T(==)>(text: seq<T>, c: nat, source: seq<T>, i: nat): (n: nat)
    ensures c <= |text| && i <= |source| ==> c + n <= |text| && i + n <= |source|
    decreases |text| - c
  {
    if c < |text| && i < |source| && text[c] == source[i] then 1 + Agreement(text, c + 1, source, i + 1) else 0
  }

  /** The best agreement of the text at `c` with the source from `i` on. */
  function Longest<T(==)>(text: seq<T>, c: nat, source: seq<T>, i: nat): (n: nat)
    ensures c <= |text| ==> c + n <= |text|
    decreases |source| - i
  {
    if i >= |source| then 0
    else
      var here, later := Agreement(text, c, source, i), Longest(text, c, source, i + 1);
      if here >= later then here else later
  }

  /** Take the longest repeat at each place, where it reaches the threshold. */
  function NaiveSpans<T(==)>(text: seq<T>, source: seq<T>, threshold: nat, c: nat): seq<Span>
    requires threshold >= 1
    decreases |text| - c
  {
    if c + threshold > |text| then []
    else
      var n := Longest(text, c, source, 0);
      if n >= threshold then [Span(c, c + n)] + NaiveSpans(text, source, threshold, c + n)
      else NaiveSpans(text, source, threshold, c + 1)
  }

  /** The same, symbol by symbol. */
  ghost predicate AgreeOver<T>(text: seq<T>, c: nat, source: seq<T>, i: nat, n: nat) {
    c + n <= |text| && i + n <= |source| && forall m :: c <= m < c + n ==> text[m] == source[m - c + i]
  }

  lemma AgreeingSlices<T>(text: seq<T>, c: nat, source: seq<T>, i: nat, n: nat)
    requires c + n <= |text|
    ensures AgreeOver(text, c, source, i, n) <==> OccursAt(text[c..c + n], source, i)
  {
    if i + n <= |source| {
      var piece, place := text[c..c + n], source[i..i + n];
      if piece == place {
        forall m | c <= m < c + n ensures text[m] == source[m - c + i] {
          assert text[m] == piece[m - c] && source[m - c + i] == place[m - c];
        }
      }
      if AgreeOver(text, c, source, i, n) {
        forall k | 0 <= k < n ensures piece[k] == place[k] {
          assert piece[k] == text[c + k] && place[k] == source[i + k];
        }
        assert piece == place;
      }
    }
  }

  lemma {:induction false} AgreementOver<T>(text: seq<T>, c: nat, source: seq<T>, i: nat, n: nat)
    requires c + n <= |text| && i <= |source|
    ensures n <= Agreement(text, c, source, i) <==> AgreeOver(text, c, source, i, n)
    decreases n
  {
    if n > 0 {
      if i < |source| && text[c] == source[i] {
        AgreementOver(text, c + 1, source, i + 1, n - 1);
      }
    }
  }

  lemma AgreementIs<T>(text: seq<T>, c: nat, source: seq<T>, i: nat, n: nat)
    requires c + n <= |text| && i <= |source|
    ensures n <= Agreement(text, c, source, i) <==> OccursAt(text[c..c + n], source, i)
  {
    AgreementOver(text, c, source, i, n);
    AgreeingSlices(text, c, source, i, n);
  }

  lemma OccursHereOrLater<T>(part: seq<T>, whole: seq<T>, i: nat)
    ensures OccursFrom(part, whole, i) <==> (OccursAt(part, whole, i) || OccursFrom(part, whole, i + 1))
  {
    if j: nat :| j >= i && OccursAt(part, whole, j) {
      assert j == i || j >= i + 1;
    }
  }

  lemma {:induction false} LongestFrom<T>(text: seq<T>, c: nat, source: seq<T>, i: nat, n: nat)
    requires c + n <= |text| && n >= 1
    ensures n <= Longest(text, c, source, i) <==> OccursFrom(text[c..c + n], source, i)
    decreases |source| - i
  {
    if i < |source| {
      AgreementIs(text, c, source, i, n);
      LongestFrom(text, c, source, i + 1, n);
      OccursHereOrLater(text[c..c + n], source, i);
    }
  }

  /** The longest repeat at `c` is exactly the longest piece there that occurs in the source. */
  lemma LongestIs<T>(text: seq<T>, c: nat, source: seq<T>, n: nat)
    requires c + n <= |text| && n >= 1
    ensures n <= Longest(text, c, source, 0) <==> Occurs(text[c..c + n], source)
  {
    LongestFrom(text, c, source, 0, n);
  }

  // ----- The indexed search -----

  /** Where a window starts in the source, in order, among the starts below `n`. */
  function Starts<T(==)>(source: seq<T>, window: seq<T>, n: nat): seq<nat> {
    if n == 0 then []
    else Starts(source, window, n - 1) + (if OccursAt(window, source, n - 1) then [n - 1] else [])
  }

  lemma {:induction false} StartsAre<T>(source: seq<T>, window: seq<T>, n: nat)
    ensures forall i :: i in Starts(source, window, n) <==> 0 <= i < n && OccursAt(window, source, i)
  {
    if n > 0 {
      StartsAre(source, window, n - 1);
    }
  }

  function Lookup<T(==)>(index: map<seq<T>, seq<nat>>, window: seq<T>): seq<nat> {
    if window in index then index[window] else []
  }

  /** The index knows the starts below `n` of every window. */
  ghost predicate Indexes<T(!new)>(index: map<seq<T>, seq<nat>>, source: seq<T>, threshold: nat, n: nat) {
    forall w :: |w| == threshold ==> Lookup(index, w) == Starts(source, w, n)
  }

  lemma IndexGrows<T(!new)>(index: map<seq<T>, seq<nat>>, source: seq<T>, threshold: nat, i: nat)
    requires Indexes(index, source, threshold, i) && i + threshold <= |source|
    ensures var w := source[i..i + threshold];
            Indexes(index[w := Lookup(index, w) + [i]], source, threshold, i + 1)
  {
    var window := source[i..i + threshold];
    var later := index[window := Lookup(index, window) + [i]];
    forall w: seq<T> | |w| == threshold ensures Lookup(later, w) == Starts(source, w, i + 1) {
      assert OccursAt(w, source, i) <==> w == window;
    }
  }

  method WindowIndex<T(==, !new)>(source: seq<T>, threshold: nat) returns (index: map<seq<T>, seq<nat>>)
    requires 1 <= threshold <= |source|
    ensures Indexes(index, source, threshold, |source| - threshold + 1)
  {
    index := map[];
    for i := 0 to |source| - threshold + 1
      invariant Indexes(index, source, threshold, i)
    {
      IndexGrows(index, source, threshold, i);
      var window := source[i..i + threshold];
      if window in index {
        index := index[window := index[window] + [i]];
      } else {
        index := index[window := [i]];
      }
    }
  }

  /** The inner loop: how far the text and the source agree beyond a window. */
  method Extend<T(==)>(text: seq<T>, c: nat, source: seq<T>, i: nat, threshold: nat) returns (end: nat)
    requires c + threshold <= |text| && OccursAt(text[c..c + threshold], source, i)
    ensures end == c + Agreement(text, c, source, i)
  {
    end := c + threshold;
    var sourceEnd := i + threshold;
    AgreementSplits(text, c, source, i, threshold);
    while end < |text| && sourceEnd < |source| && text[end] == source[sourceEnd]
      invariant c + threshold <= end <= |text| && sourceEnd - i == end - c && sourceEnd <= |source|
      invariant c + Agreement(text, c, source, i) == end + Agreement(text, end, source, sourceEnd)
    {
      end := end + 1;
      sourceEnd := sourceEnd + 1;
    }
  }

  lemma {:induction false} AgreementContinues<T>(text: seq<T>, c: nat, source: seq<T>, i: nat, n: nat)
    requires AgreeOver(text, c, source, i, n)
    ensures Agreement(text, c, source, i) == n + Agreement(text, c + n, source, i + n)
    decreases n
  {
    if n > 0 {
      assert text[c] == source[c - c + i];
      AgreementContinues(text, c + 1, source, i + 1, n - 1);
    }
  }

  lemma AgreementSplits<T>(text: seq<T>, c: nat, source: seq<T>, i: nat, n: nat)
    requires c + n <= |text| && OccursAt(text[c..c + n], source, i)
    ensures Agreement(text, c, source, i) == n + Agreement(text, c + n, source, i + n)
  {
    AgreeingSlices(text, c, source, i, n);
    AgreementContinues(text, c, source, i, n);
  }

  ghost predicate BestOf<T>(text: seq<T>, c: nat, source: seq<T>, starts: seq<nat>, k: nat, threshold: nat, end: nat)
    requires k <= |starts|
  {
    && (forall m :: 0 <= m < k ==> c + Agreement(text, c, source, starts[m]) <= end)
    && (end == c + threshold || exists m :: 0 <= m < k && end == c + Agreement(text, c, source, starts[m]))
  }

  /** The loop over the starts of a window: the best end is that of the longest repeat. */
  method BestEnd<T(==)>(text: seq<T>, c: nat, source: seq<T>, starts: seq<nat>, threshold: nat) returns (end: nat)
    requires threshold >= 1 && c + threshold <= |text| && starts != []
    requires forall i :: i in starts <==> 0 <= i && OccursAt(text[c..c + threshold], source, i)
    ensures end == c + Longest(text, c, source, 0) >= c + threshold
  {
    end := c + threshold;
    for k := 0 to |starts|
      invariant BestOf(text, c, source, starts, k, threshold, end)
      invariant end >= c + threshold
    {
      assert starts[k] in starts;
      var e := Extend(text, c, source, starts[k], threshold);
      end := if e > end then e else end;
    }
    BestIsLongest(text, c, source, starts, threshold, end);
  }

  lemma {:induction false} LongestAtLeast<T>(text: seq<T>, c: nat, source: seq<T>, i: nat, j: nat)
    requires i <= j
    ensures Agreement(text, c, source, j) <= Longest(text, c, source, i)
    decreases |source| - i
  {
    if i < |source| {
      if i < j {
        LongestAtLeast(text, c, source, i + 1, j);
      }
    } else {
      assert Agreement(text, c, source, j) == 0;
    }
  }

  lemma {:induction false} LongestSomewhere<T>(text: seq<T>, c: nat, source: seq<T>, i: nat) returns (j: nat)
    ensures Agreement(text, c, source, j) == Longest(text, c, source, i)
    decreases |source| - i
  {
    if i >= |source| || Agreement(text, c, source, i) >= Longest(text, c, source, i + 1) {
      j := i;
    } else {
      j := LongestSomewhere(text, c, source, i + 1);
    }
  }

  lemma BestIsLongest<T>(text: seq<T>, c: nat, source: seq<T>, starts: seq<nat>, threshold: nat, end: nat)
    requires threshold >= 1 && c + threshold <= |text| && starts != []
    requires forall i :: i in starts <==> 0 <= i && OccursAt(text[c..c + threshold], source, i)
    requires BestOf(text, c, source, starts, |starts|, threshold, end) && end >= c + threshold
    ensures end == c + Longest(text, c, source, 0)
  {
    var j := LongestSomewhere(text, c, source, 0);
    LongestAtLeast(text, c, source, 0, starts[0]);
    assert starts[0] in starts;
    AgreementSplits(text, c, source, starts[0], threshold);
    assert Agreement(text, c, source, starts[0]) >= threshold;
    assert j <= |source| by {
      assert Agreement(text, c, source, j) >= threshold;
    }
    AgreementIs(text, c, source, j, threshold);
    assert j in starts;
    var m :| 0 <= m < |starts| && starts[m] == j;
    if end != c + threshold {
      var m' :| 0 <= m' < |starts| && end == c + Agreement(text, c, source, starts[m']);
      LongestAtLeast(text, c, source, 0, starts[m']);
    }
  }

  lemma NoRepeatHere<T>(text: seq<T>, c: nat, source: seq<T>, threshold: nat)
    requires threshold >= 1 && c + threshold <= |text| && !Occurs(text[c..c + threshold], source)
    ensures Longest(text, c, source, 0) < threshold
  {
    LongestIs(text, c, source, threshold);
  }

  lemma {:induction false} NoSpansInShortSource<T>(text: seq<T>, source: seq<T>, threshold: nat, c: nat)
    requires threshold >= 1 && |source| < threshold
    ensures NaiveSpans(text, source, threshold, c) == []
    decreases |text| - c
  {
    if c + threshold <= |text| {
      NoRepeatHere(text, c, source, threshold);
      NoSpansInShortSource(text, source, threshold, c + 1);
    }
  }

  /** A full index answers whether and where a window occurs. */
  lemma LookedUp<T(!new)>(index: map<seq<T>, seq<nat>>, source: seq<T>, threshold: nat, window: seq<T>)
    requires 1 <= threshold <= |source| && Indexes(index, source, threshold, |source| - threshold + 1)
    requires |window| == threshold
    ensures forall i :: i in Lookup(index, window) <==> 0 <= i && OccursAt(window, source, i)
    ensures Lookup(index, window) == [] ==> !Occurs(window, source)
  {
    StartsAre(source, window, |source| - threshold + 1);
    if Occurs(window, source) {
      var i: nat :| OccursAt(window, source, i);
      assert i in Lookup(index, window);
    }
  }

  /** source_excerpt_overlap_spans. The indexed scan finds what the naive search finds. */
  method FindSpans<T(==, !new)>(text: seq<T>, source: seq<T>, minChars: int) returns (spans: seq<Span>)
    ensures spans == NaiveSpans(text, source, Threshold(minChars), 0)
  {
    var threshold := Threshold(minChars);
    if |text| < threshold || |source| < threshold {
      if |source| < threshold {
        NoSpansInShortSource(text, source, threshold, 0);
      }
      return [];
    }
    var index := WindowIndex(source, threshold);
    spans := [];
    var cursor, lastSeed := 0, |text| - threshold;
    while cursor <= lastSeed
      invariant spans + NaiveSpans(text, source, threshold, cursor) == NaiveSpans(text, source, threshold, 0)
      decreases |text| - cursor
    {
      var starts := Lookup(index, text[cursor..cursor + threshold]);
      LookedUp(index, source, threshold, text[cursor..cursor + threshold]);
      if starts == [] {
        NoRepeatHere(text, cursor, source, threshold);
        cursor := cursor + 1;
        continue;
      }
      var bestEnd := BestEnd(text, cursor, source, starts, threshold);
      spans := spans + [Span(cursor, bestEnd)];
      cursor := bestEnd;
    }
  }

  // ----- What the spans are -----

  /** In order, apart, each at least the threshold long, within the text from `c` on. */
  predicate InOrder(spans: seq<Span>, c: nat, threshold: nat, length: nat)
    decreases |spans|
  {
    spans == [] ||
    (c <= spans[0].start && spans[0].start + threshold <= spans[0].end <= length
     && InOrder(spans[1..], spans[0].end, threshold, length))
  }

  lemma {:induction false} SpansInOrder<T>(text: seq<T>, source: seq<T>, threshold: nat, c: nat)
    requires threshold >= 1
    ensures InOrder(NaiveSpans(text, source, threshold, c), c, threshold, |text|)
    decreases |text| - c
  {
    if c + threshold <= |text| {
      var n := Longest(text, c, source, 0);
      if n >= threshold {
        SpansInOrder(text, source, threshold, c + n);
        assert NaiveSpans(text, source, threshold, c)[1..] == NaiveSpans(text, source, threshold, c + n);
      } else {
        SpansInOrder(text, source, threshold, c + 1);
        OrderFromEarlier(NaiveSpans(text, source, threshold, c + 1), c, c + 1, threshold, |text|);
      }
    }
  }

  lemma OrderFromEarlier(spans: seq<Span>, c: nat, d: nat, threshold: nat, length: nat)
    requires c <= d && InOrder(spans, d, threshold, length)
    ensures InOrder(spans, c, threshold, length)
  {
  }

  lemma {:induction false} OrderedPairwise(spans: seq<Span>, c: nat, threshold: nat, length: nat, k: nat)
    requires InOrder(spans, c, threshold, length) && k < |spans|
    ensures c <= spans[k].start && spans[k].start + threshold <= spans[k].end <= length
    ensures forall m :: 0 <= m < k ==> spans[m].end <= spans[k].start
    decreases |spans|
  {
    if k > 0 {
      OrderedPairwise(spans[1..], spans[0].end, threshold, length, k - 1);
      forall m | 0 <= m < k ensures spans[m].end <= spans[k].start {
        assert m > 0 ==> spans[m] == spans[1..][m - 1];
      }
    }
  }

  /** The text of a span occurs in the source, and no longer piece from its start does. */
  ghost predicate MaximalRepeat<T>(text: seq<T>, source: seq<T>, span: Span) {
    && span.start <= span.end <= |text| && Occurs(text[span.start..span.end], source)
    && (span.end < |text| ==> !Occurs(text[span.start..span.end + 1], source))
  }

  lemma {:induction false} SpansAreMaximal<T>(text: seq<T>, source: seq<T>, threshold: nat, c: nat, k: nat)
    requires threshold >= 1 && k < |NaiveSpans(text, source, threshold, c)|
    ensures MaximalRepeat(text, source, NaiveSpans(text, source, threshold, c)[k])
    decreases |text| - c
  {
    var n := Longest(text, c, source, 0);
    if n < threshold {
      SpansAreMaximal(text, source, threshold, c + 1, k);
    } else if k == 0 {
      LongestIs(text, c, source, n);
      if c + n < |text| {
        LongestIs(text, c, source, n + 1);
      }
    } else {
      SpansAreMaximal(text, source, threshold, c + n, k - 1);
    }
  }

  predicate InSpans(spans: seq<Span>, p: nat) {
    exists k :: 0 <= k < |spans| && spans[k].start <= p < spans[k].end
  }

  lemma InLaterSpans(first: Span, rest: seq<Span>, p: nat)
    ensures InSpans([first] + rest, p) <==> (first.start <= p < first.end || InSpans(rest, p))
  {
    var spans := [first] + rest;
    assert spans[0] == first;
    if InSpans(rest, p) {
      var k :| 0 <= k < |rest| && rest[k].start <= p < rest[k].end;
      assert spans[k + 1] == rest[k];
    }
    if InSpans(spans, p) && !(first.start <= p < first.end) {
      var k :| 0 <= k < |spans| && spans[k].start <= p < spans[k].end;
      assert spans[k] == rest[k - 1];
    }
  }

  /** Every place where a window of the source starts lies in a span. */
  lemma {:induction false} EveryHitIsCovered<T>(text: seq<T>, source: seq<T>, threshold: nat, c: nat, p: nat)
    requires threshold >= 1 && c <= p && p + threshold <= |text| && Occurs(text[p..p + threshold], source)
    ensures InSpans(NaiveSpans(text, source, threshold, c), p)
    decreases |text| - c
  {
    var n := Longest(text, c, source, 0);
    if n >= threshold {
      var rest := NaiveSpans(text, source, threshold, c + n);
      InLaterSpans(Span(c, c + n), rest, p);
      if p >= c + n {
        EveryHitIsCovered(text, source, threshold, c + n, p);
      }
    } else {
      LongestIs(text, c, source, threshold);
      EveryHitIsCovered(text, source, threshold, c + 1, p);
    }
  }

  /** A window of the text that occurs in the source. */
  ghost predicate Hit<T>(text: seq<T>, source: seq<T>, threshold: nat, p: nat) {
    p + threshold <= |text| && Occurs(text[p..p + threshold], source)
  }

  /** What the finder returns, in one statement: sound, complete and maximal. */
  lemma FinderIsExact<T>(text: seq<T>, source: seq<T>, minChars: int)
    ensures var spans, t := NaiveSpans(text, source, Threshold(minChars), 0), Threshold(minChars);
            && (t == minChars || minChars < t == 1)
            && (forall k :: 0 <= k < |spans| ==>
                  spans[k].start + t <= spans[k].end && MaximalRepeat(text, source, spans[k]))
            && (forall m, k :: 0 <= m < k < |spans| ==> spans[m].end <= spans[k].start)
            && (forall p: nat :: Hit(text, source, t, p) ==> InSpans(spans, p))
  {
    var spans, t := NaiveSpans(text, source, Threshold(minChars), 0), Threshold(minChars);
    SpansInOrder(text, source, t, 0);
    forall k | 0 <= k < |spans|
      ensures spans[k].start + t <= spans[k].end && MaximalRepeat(text, source, spans[k])
      ensures forall m :: 0 <= m < k ==> spans[m].end <= spans[k].start
    {
      OrderedPairwise(spans, 0, t, |text|, k);
      SpansAreMaximal(text, source, t, 0, k);
    }
    forall p: nat | Hit(text, source, t, p) ensures InSpans(spans, p) {
      EveryHitIsCovered(text, source, t, 0, p);
    }
  }

  lemma PieceOccurs<T>(part: seq<T>, whole: seq<T>, n: nat)
    requires n <= |part| && Occurs(part, whole)
    ensures Occurs(part[..n], whole)
  {
    var i: nat :| OccursAt(part, whole, i);
    assert whole[i..i + n] == whole[i..i + |part|][..n];
    assert OccursAt(part[..n], whole, i);
  }

  lemma SpanStartsWithHit<T>(text: seq<T>, source: seq<T>, threshold: nat, s: Span)
    requires MaximalRepeat(text, source, s) && s.start + threshold <= s.end
    ensures Hit(text, source, threshold, s.start)
  {
    PieceOccurs(text[s.start..s.end], source, threshold);
    var piece := text[s.start..s.end];
    assert text[s.start..s.start + threshold] == piece[..threshold];
  }

  /** The text holds no window of the source exactly when there are no spans. */
  lemma NoSpansMeansNoRepeat<T>(text: seq<T>, source: seq<T>, minChars: int)
    ensures var spans, t := NaiveSpans(text, source, Threshold(minChars), 0), Threshold(minChars);
            spans == [] <==> forall p: nat :: !Hit(text, source, t, p)
  {
    FinderIsExact(text, source, minChars);
    var t := Threshold(minChars);
    var spans := NaiveSpans(text, source, t, 0);
    if spans != [] {
      SpansInOrder(text, source, t, 0);
      SpansAreMaximal(text, source, t, 0, 0);
      SpanStartsWithHit(text, source, t, spans[0]);
    }
  }
}
