/** Taking the source out of a prompt (ensure_source_excerpt_in_prompt in app/compiler.py):
    allowed lines are protected by placeholders, the overlap spans are replaced from right
    to left, and the placeholders are turned back into their lines. */
module ExcerptSplice {
  import opened OverlapSpans
  import opened PlaceholderTexts
  import opened VerbatimLines

  /** The text with the spans, from the `k`-th on, replaced at once. */
  function Substituted<T>(t: seq<T>, spans: seq<Span>, put: seq<T>, c: nat): seq<T>
    requires InOrder(spans, c, 0, |t|) && c <= |t|
    decreases |spans|
  {
    if spans == [] then t[c..]
    else t[c..spans[0].start] + put + Substituted(t, spans[1..], put, spans[0].end)
  }

  // ----- Splicing -----

  lemma LooseOrder(spans: seq<Span>, c: nat, threshold: nat, length: nat)
    requires InOrder(spans, c, threshold, length)
    ensures InOrder(spans, c, 0, length)
    decreases |spans|
  {
  }

  lemma {:induction false} OrderBeforeLast(before: seq<Span>, s: Span, c: nat, length: nat)
    requires InOrder(before + [s], c, 0, length) && c <= length
    ensures c <= s.start <= s.end <= length && InOrder(before, c, 0, s.start)
    decreases |before|
  {
    if before == [] {
      assert before + [s] == [s];
    } else {
      assert (before + [s])[1..] == before[1..] + [s] && (before + [s])[0] == before[0];
      OrderBeforeLast(before[1..], s, before[0].end, length);
    }
  }

  lemma PrefixSlice<T>(t: seq<T>, m: nat, a: nat, b: nat)
    requires a <= b <= m <= |t|
    ensures t[..m][a..b] == t[a..b] && (b == m ==> t[..m][a..] == t[a..b])
  {
  }

  lemma {:induction false} LastSpan<T>(t: seq<T>, before: seq<Span>, s: Span, put: seq<T>, c: nat)
    requires InOrder(before + [s], c, 0, |t|) && c <= |t|
    ensures c <= s.start <= s.end <= |t| && InOrder(before, c, 0, s.start)
    ensures Substituted(t, before + [s], put, c) == Substituted(t[..s.start], before, put, c) + (put + t[s.end..])
    decreases |before|
  {
    OrderBeforeLast(before, s, c, |t|);
    var spans := before + [s];
    if before == [] {
      assert spans[0] == s && spans[1..] == [];
      PrefixSlice(t, s.start, c, s.start);
      Reassociate(t[c..s.start], put, t[s.end..]);
    } else {
      assert spans[1..] == before[1..] + [s] && spans[0] == before[0];
      var f := before[0];
      LastSpan(t, before[1..], s, put, f.end);
      PrefixSlice(t, s.start, c, f.start);
      Reassociate(t[c..f.start] + put, Substituted(t[..s.start], before[1..], put, f.end), put + t[s.end..]);
    }
  }

  lemma CutAround<T>(t: seq<T>, m: nat, tail: seq<T>, a: nat, b: nat)
    requires a <= b <= m <= |t|
    ensures t[..m][..a] == t[..a] && t[..m][b..] == t[b..m]
    ensures (t[..m] + tail)[..a] == t[..a] && (t[..m] + tail)[b..] == t[b..m] + tail
  {
  }

  /** One round of the loop, on what is left of the text and what was put behind it. */
  lemma SpliceStep<T>(t: seq<T>, before: seq<Span>, s: Span, put: seq<T>, m: nat, tail: seq<T>)
    requires m <= |t| && InOrder(before + [s], 0, 0, m)
    ensures s.start <= s.end <= m && InOrder(before, 0, 0, s.start)
    ensures (t[..m] + tail)[..s.start] == t[..s.start] && (t[..m] + tail)[s.end..] == t[s.end..m] + tail
    ensures Substituted(t[..m], before + [s], put, 0) + tail
              == Substituted(t[..s.start], before, put, 0) + (put + t[s.end..m] + tail)
  {
    LastSpan(t[..m], before, s, put, 0);
    CutAround(t, m, tail, s.start, s.end);
    Assoc(Substituted(t[..s.start], before, put, 0), put, t[s.end..m], tail);
  }

  lemma Assoc<T>(a: seq<T>, b: seq<T>, c: seq<T>, d: seq<T>)
    ensures (a + (b + c)) + d == a + (b + c + d)
    ensures a + b + (c + d) == a + (b + c + d)
  {
  }

  /** The loop over the spans from right to left. It substitutes them all at once. */
  method Splice<T>(t: seq<T>, spans: seq<Span>, put: seq<T>) returns (r: seq<T>)
    requires InOrder(spans, 0, 0, |t|)
    ensures r == Substituted(t, spans, put, 0)
  {
    r := t;
    var k := |spans|;
    ghost var m: nat, tail: seq<T> := |t|, [];
    assert spans[..k] == spans && t[..m] == t;
    while k > 0
      invariant 0 <= k <= |spans| && m <= |t| && r == t[..m] + tail
      invariant InOrder(spans[..k], 0, 0, m)
      invariant Substituted(t[..m], spans[..k], put, 0) + tail == Substituted(t, spans, put, 0)
    {
      k := k - 1;
      var s := spans[k];
      assert spans[..k + 1] == spans[..k] + [s];
      SpliceStep(t, spans[..k], s, put, m, tail);
      Assoc(t[..s.start], put, t[s.end..m], tail);
      r := r[..s.start] + put + r[s.end..];
      m, tail := s.start, put + t[s.end..m] + tail;
    }
    assert spans[..0] == [];
  }

  // ----- Kept fragments -----

  /** The stretches between the spans. */
  function Fragments<T>(t: seq<T>, spans: seq<Span>, c: nat): (fs: seq<seq<T>>)
    requires InOrder(spans, c, 0, |t|) && c <= |t|
    ensures fs != []
    decreases |spans|
  {
    if spans == [] then [t[c..]] else [t[c..spans[0].start]] + Fragments(t, spans[1..], spans[0].end)
  }

  function Join<T>(fs: seq<seq<T>>, put: seq<T>): seq<T>
    requires fs != []
  {
    if |fs| == 1 then fs[0] else fs[0] + put + Join(fs[1..], put)
  }

  lemma {:induction false} SubstitutedIsJoined<T>(t: seq<T>, spans: seq<Span>, put: seq<T>, c: nat)
    requires InOrder(spans, c, 0, |t|) && c <= |t|
    ensures Substituted(t, spans, put, c) == Join(Fragments(t, spans, c), put)
    decreases |spans|
  {
    if spans != [] {
      SubstitutedIsJoined(t, spans[1..], put, spans[0].end);
      assert Fragments(t, spans, c)[1..] == Fragments(t, spans[1..], spans[0].end);
    }
  }

  ghost predicate Clean<T>(t: seq<T>, source: seq<T>, threshold: nat) {
    forall p: nat :: !Hit(t, source, threshold, p)
  }

  lemma HitInStretch<T>(t: seq<T>, source: seq<T>, threshold: nat, a: nat, b: nat, p: nat)
    requires a <= b <= |t| && Hit(t[a..b], source, threshold, p)
    ensures a + p + threshold <= b && Hit(t, source, threshold, a + p)
  {
    var piece := t[a..b];
    var window := piece[p..p + threshold];
    assert forall k :: 0 <= k < threshold ==> window[k] == t[a + p + k];
    assert window == t[a + p..a + p + threshold];
  }

  lemma CleanStretch<T>(t: seq<T>, source: seq<T>, threshold: nat, a: nat, b: nat)
    requires a <= b <= |t|
    requires forall p: nat :: a <= p && p + threshold <= b ==> !Hit(t, source, threshold, p)
    ensures Clean(t[a..b], source, threshold)
  {
    forall p: nat ensures !Hit(t[a..b], source, threshold, p) {
      if Hit(t[a..b], source, threshold, p) {
        HitInStretch(t, source, threshold, a, b, p);
      }
    }
  }

  ghost predicate Unhit<T>(t: seq<T>, source: seq<T>, threshold: nat, a: nat, b: nat) {
    forall p: nat :: a <= p < b ==> !Hit(t, source, threshold, p)
  }

  lemma UnhitStretch<T>(t: seq<T>, source: seq<T>, threshold: nat, a: nat, b: nat, end: nat)
    requires threshold >= 1 && a <= end <= |t| && end < b + threshold && Unhit(t, source, threshold, a, b)
    ensures Clean(t[a..end], source, threshold)
  {
    CleanStretch(t, source, threshold, a, end);
  }

  /** No stretch kept between the spans holds a window of the source. */
  lemma {:induction false} FragmentsAreClean<T>(t: seq<T>, source: seq<T>, threshold: nat, c: nat, cursor: nat, k: nat)
    requires threshold >= 1 && c <= cursor <= |t| && Unhit(t, source, threshold, c, cursor)
    requires InOrder(NaiveSpans(t, source, threshold, cursor), c, 0, |t|)
    requires k < |Fragments(t, NaiveSpans(t, source, threshold, cursor), c)|
    ensures Clean(Fragments(t, NaiveSpans(t, source, threshold, cursor), c)[k], source, threshold)
    decreases |t| - cursor
  {
    if cursor + threshold > |t| {
      UnhitStretch(t, source, threshold, c, cursor, |t|);
      assert t[c..] == t[c..|t|];
    } else {
      var n := Longest(t, cursor, source, 0);
      if n < threshold {
        LongestIs(t, cursor, source, threshold);
        FragmentsAreClean(t, source, threshold, c, cursor + 1, k);
      } else if k == 0 {
        UnhitStretch(t, source, threshold, c, cursor, cursor);
      } else {
        SpansInOrder(t, source, threshold, cursor + n);
        LooseOrder(NaiveSpans(t, source, threshold, cursor + n), cursor + n, threshold, |t|);
        FragmentsAreClean(t, source, threshold, cursor + n, cursor + n, k - 1);
        assert NaiveSpans(t, source, threshold, cursor)[1..] == NaiveSpans(t, source, threshold, cursor + n);
      }
    }
  }

  // ----- The scan that replaces as it goes -----

  function Scan<T(==)>(u: seq<T>, source: seq<T>, threshold: nat, put: seq<T>): seq<T>
    requires threshold >= 1
  {
    if u == [] then []
    else
      var n := Longest(u, 0, source, 0);
      if n >= threshold then put + Scan(u[n..], source, threshold, put)
      else [u[0]] + Scan(u[1..], source, threshold, put)
  }

  lemma {:induction false} AgreementFrom<T>(text: seq<T>, c: nat, source: seq<T>, i: nat)
    requires c <= |text|
    ensures Agreement(text, c, source, i) == Agreement(text[c..], 0, source, i)
    decreases |text| - c
  {
    if c < |text| && i < |source| && text[c] == source[i] {
      AgreementFrom(text, c + 1, source, i + 1);
      assert text[c..][1..] == text[c + 1..];
      if c > 0 {
        AgreementFrom(text[c..], 1, source, i + 1);
      }
    }
  }

  lemma {:induction false} LongestFromHere<T>(text: seq<T>, c: nat, source: seq<T>, i: nat)
    requires c <= |text|
    ensures Longest(text, c, source, i) == Longest(text[c..], 0, source, i)
    decreases |source| - i
  {
    if i < |source| {
      AgreementFrom(text, c, source, i);
      LongestFromHere(text, c, source, i + 1);
    }
  }

  lemma {:induction false} ShortIsKept<T>(u: seq<T>, source: seq<T>, threshold: nat, put: seq<T>)
    requires threshold >= 1 && |u| < threshold
    ensures Scan(u, source, threshold, put) == u
  {
    if u != [] {
      ShortIsKept(u[1..], source, threshold, put);
    }
  }

  lemma SubstitutedLater<T>(t: seq<T>, spans: seq<Span>, put: seq<T>, c: nat)
    requires c < |t| && InOrder(spans, c + 1, 0, |t|) && InOrder(spans, c, 0, |t|)
    ensures Substituted(t, spans, put, c) == [t[c]] + Substituted(t, spans, put, c + 1)
  {
    if spans == [] {
      assert t[c..] == [t[c]] + t[c + 1..];
    } else {
      var s := spans[0];
      assert t[c..s.start] == [t[c]] + t[c + 1..s.start];
      Reassociate([t[c]], t[c + 1..s.start], put);
      Reassociate([t[c]], t[c + 1..s.start] + put, Substituted(t, spans[1..], put, s.end));
    }
  }

  lemma LooseSpans<T>(t: seq<T>, source: seq<T>, threshold: nat, c: nat)
    requires threshold >= 1
    ensures InOrder(NaiveSpans(t, source, threshold, c), c, 0, |t|)
  {
    SpansInOrder(t, source, threshold, c);
    LooseOrder(NaiveSpans(t, source, threshold, c), c, threshold, |t|);
  }

  /** Replacing the spans that the finder returns is scanning and replacing. */
  lemma {:induction false} SubstitutedIsScanned<T>(t: seq<T>, source: seq<T>, threshold: nat, put: seq<T>, c: nat)
    requires threshold >= 1 && c <= |t| && InOrder(NaiveSpans(t, source, threshold, c), c, 0, |t|)
    ensures Substituted(t, NaiveSpans(t, source, threshold, c), put, c) == Scan(t[c..], source, threshold, put)
    decreases |t| - c
  {
    if c + threshold > |t| {
      ShortIsKept(t[c..], source, threshold, put);
    } else {
      var n := Longest(t, c, source, 0);
      LongestFromHere(t, c, source, 0);
      if n >= threshold {
        LooseSpans(t, source, threshold, c + n);
        SubstitutedIsScanned(t, source, threshold, put, c + n);
        assert NaiveSpans(t, source, threshold, c)[1..] == NaiveSpans(t, source, threshold, c + n);
        assert t[c..][n..] == t[c + n..] && t[c..c] == [];
        assert [] + put == put;
      } else {
        LooseSpans(t, source, threshold, c + 1);
        SubstitutedLater(t, NaiveSpans(t, source, threshold, c + 1), put, c);
        SubstitutedIsScanned(t, source, threshold, put, c + 1);
        assert t[c..][1..] == t[c + 1..];
      }
    }
  }

  // ----- Scanning a rendered text -----

  predicate AllChars(t: Text, n: nat) {
    n <= |t| && forall k :: 0 <= k < n ==> t[k].Char?
  }

  /** A window of the rendered text that begins with the first symbol and that the source has
      touches no placeholder. */
  ghost predicate ClearHere(t: Text, source: string, threshold: nat)
    requires t != []
  {
    match t[0]
    case Mark(i) => forall r :: 0 <= r < |Token(i)| ==> !Hit(Render(t), source, threshold, r)
    case Char(_) => Hit(Render(t), source, threshold, 0) ==> AllChars(t, threshold)
  }

  /** Every window of the rendered text that the source has lies outside the placeholders. */
  ghost predicate Clear(t: Text, source: string, threshold: nat) {
    t == [] || (ClearHere(t, source, threshold) && Clear(t[1..], source, threshold))
  }

  lemma {:induction false} ClearBehind(t: Text, source: string, threshold: nat, k: nat)
    requires k <= |t| && Clear(t, source, threshold)
    ensures Clear(t[k..], source, threshold)
  {
    if k == 0 {
      assert t[0..] == t;
    } else {
      ClearBehind(t[1..], source, threshold, k - 1);
      assert t[1..][k - 1..] == t[k..];
    }
  }

  lemma {:induction false} SkipScan<T>(a: seq<T>, b: seq<T>, source: seq<T>, threshold: nat, put: seq<T>)
    requires threshold >= 1 && forall r :: 0 <= r < |a| ==> Longest(a[r..] + b, 0, source, 0) < threshold
    ensures Scan(a + b, source, threshold, put) == a + Scan(b, source, threshold, put)
  {
    if a == [] {
      assert a + b == b;
    } else {
      forall r | 0 <= r < |a| - 1 ensures Longest(a[1..][r..] + b, 0, source, 0) < threshold {
        assert a[1..][r..] == a[r + 1..];
      }
      SkipScan(a[1..], b, source, threshold, put);
      assert a[0..] == a && (a + b)[1..] == a[1..] + b;
    }
  }

  lemma RepeatedIsLifted(t: Text, source: string, n: nat)
    requires n <= Longest(t, 0, Lift(source), 0)
    ensures n <= |t| && exists s: string :: t[..n] == Lift(s)
  {
    var j := LongestSomewhere(t, 0, Lift(source), 0);
    if j <= |source| {
      AgreementOver(t, 0, Lift(source), j, n);
      assert t[..n] == Lift(source[j..j + n]);
    } else {
      assert t[..0] == Lift("");
    }
  }

  lemma {:induction false} CharsAreLifted(t: Text, n: nat) returns (s: string)
    requires AllChars(t, n)
    ensures |s| == n && t[..n] == Lift(s)
    ensures s <= Render(t) && Render(t)[n..] == Render(t[n..])
  {
    if n == 0 {
      s := "";
      assert t[0..] == t && Render(t)[0..] == Render(t);
    } else {
      var rest := CharsAreLifted(t[1..], n - 1);
      s := [t[0].c] + rest;
      RenderFront(t);
      SameFront(s, Render(t));
      assert t[1..][n - 1..] == t[n..] && t[..n] == [t[0]] + t[1..][..n - 1];
      assert Render(t)[1..][n - 1..] == Render(t)[n..];
    }
  }

  lemma LiftedOccurs(s: string, source: string)
    ensures Occurs(Lift(s), Lift(source)) <==> Occurs(s, source)
  {
    ContainsOccurs(Lift(source), Lift(s));
    ContainsOccurs(source, s);
    LiftedContains(source, s);
  }

  lemma PieceInside<T>(part: seq<T>, whole: seq<T>, a: nat, b: nat)
    requires a <= b <= |part| && Occurs(part, whole)
    ensures Occurs(part[a..b], whole)
  {
    var i: nat :| OccursAt(part, whole, i);
    assert forall k :: a <= k < b ==> part[k] == whole[i..i + |part|][k] == whole[i + k];
    assert part[a..b] == whole[i + a..i + b];
    assert OccursAt(part[a..b], whole, i + a);
  }

  lemma WindowIsChars(t: Text, source: string, threshold: nat)
    requires threshold >= 1 && t != [] && Clear(t, source, threshold)
    requires threshold <= |Render(t)| && Occurs(Render(t)[..threshold], source)
    ensures AllChars(t, threshold)
  {
    assert Render(t)[0..0 + threshold] == Render(t)[..threshold];
    assert Hit(Render(t), source, threshold, 0);
  }

  /** Where the text repeats a long stretch of the source, the stretch is all characters. */
  lemma {:induction false} RepeatIsChars(t: Text, source: string, threshold: nat, n: nat)
    requires threshold >= 1 && t != [] && Clear(t, source, threshold)
    requires threshold <= n <= |Render(t)| && Occurs(Render(t)[..n], source)
    ensures AllChars(t, n)
    decreases n
  {
    if n == threshold {
      WindowIsChars(t, source, threshold);
    } else {
      var u, m := Render(t)[..n], n - threshold;
      PieceInside(u, source, 0, n - 1);
      assert u[0..n - 1] == Render(t)[..n - 1];
      RepeatIsChars(t, source, threshold, n - 1);
      var s := CharsAreLifted(t, m);
      var v := t[m..];
      ClearBehind(t, source, threshold, m);
      PieceInside(u, source, m, n);
      assert u[m..n] == Render(v)[..threshold];
      assert v != [];
      WindowIsChars(v, source, threshold);
      assert t[n - 1] == v[threshold - 1];
    }
  }

  lemma RepeatsAreRendered(t: Text, source: string)
    ensures Longest(t, 0, Lift(source), 0) <= Longest(Render(t), 0, source, 0)
  {
    var n, u := Longest(t, 0, Lift(source), 0), Render(t);
    if n >= 1 {
      RepeatedIsLifted(t, source, n);
      var s: string :| t[..n] == Lift(s);
      assert t == Lift(s) + t[n..];
      RenderAppend(Lift(s), t[n..]);
      RenderLifted(s);
      assert t[0..0 + n] == Lift(s) && u[0..0 + n] == s;
      LongestIs(t, 0, Lift(source), n);
      LiftedOccurs(s, source);
      LongestIs(u, 0, source, n);
    }
  }

  /** Long repeats are as long in characters as on symbols. */
  lemma LongestRendered(t: Text, source: string, threshold: nat)
    requires threshold >= 1 && t != [] && Clear(t, source, threshold)
    requires Longest(Render(t), 0, source, 0) >= threshold
    ensures Longest(t, 0, Lift(source), 0) == Longest(Render(t), 0, source, 0)
  {
    var u, m := Render(t), Longest(Render(t), 0, source, 0);
    RepeatsAreRendered(t, source);
    LongestIs(u, 0, source, m);
    assert u[0..0 + m] == u[..m];
    RepeatIsChars(t, source, threshold, m);
    var s := CharsAreLifted(t, m);
    assert t[0..0 + m] == Lift(s) && u[..m] == s;
    LiftedOccurs(s, source);
    LongestIs(t, 0, Lift(source), m);
  }

  lemma NoHitNoRepeat(x: string, y: string, source: string, threshold: nat, r: nat)
    requires threshold >= 1 && r < |x| && !Hit(x + y, source, threshold, r)
    ensures Longest(x[r..] + y, 0, source, 0) < threshold
  {
    var u := x[r..] + y;
    if threshold <= |u| {
      assert u[0..0 + threshold] == (x + y)[r..r + threshold];
      LongestIs(u, 0, source, threshold);
    }
  }

  lemma ScanSkipsToken(t: Text, source: string, threshold: nat, put: string)
    requires threshold >= 1 && t != [] && t[0].Mark? && Clear(t, source, threshold)
    ensures var rest, token := Render(t[1..]), Token(t[0].index);
            Scan(token + rest, source, threshold, put) == token + Scan(rest, source, threshold, put)
  {
    var rest, token := Render(t[1..]), Token(t[0].index);
    forall r | 0 <= r < |token| ensures Longest(token[r..] + rest, 0, source, 0) < threshold {
      assert !Hit(Render(t), source, threshold, r);
      NoHitNoRepeat(token, rest, source, threshold, r);
    }
    SkipScan(token, rest, source, threshold, put);
  }

  /** Then no span reaches into a placeholder: scanning the rendered text is scanning the
      symbols. */
  lemma {:induction false} ScanRendered(t: Text, source: string, threshold: nat, put: string)
    requires threshold >= 1 && Clear(t, source, threshold)
    ensures Scan(Render(t), source, threshold, put) == Render(Scan(t, Lift(source), threshold, Lift(put)))
    decreases |t|
  {
    if t != [] {
      var n, symbols := Longest(t, 0, Lift(source), 0), Lift(source);
      if n >= threshold {
        RepeatedIsLifted(t, source, n);
        var s: string :| t[..n] == Lift(s);
        RepeatsAreRendered(t, source);
        LongestRendered(t, source, threshold);
        assert t == Lift(s) + t[n..];
        RenderAppend(Lift(s), t[n..]);
        RenderLifted(s);
        ClearBehind(t, source, threshold, n);
        ScanRendered(t[n..], source, threshold, put);
        RenderAppend(Lift(put), Scan(t[n..], symbols, threshold, Lift(put)));
        RenderLifted(put);
      } else {
        ScanRendered(t[1..], source, threshold, put);
        var after := Scan(t[1..], symbols, threshold, Lift(put));
        assert ([t[0]] + after)[1..] == after;
        if t[0].Mark? {
          ScanSkipsToken(t, source, threshold, put);
        } else {
          if Longest(Render(t), 0, source, 0) >= threshold {
            LongestRendered(t, source, threshold);
          }
          assert Render(t)[1..] == Render(t[1..]) && Render(t)[0] == t[0].c;
        }
      }
    }
  }

  /** The placeholders of a text, in their order. */
  function MarkList(t: Text): seq<nat> {
    if t == [] then [] else (if t[0].Mark? then [t[0].index] else []) + MarkList(t[1..])
  }

  lemma {:induction false} SkipLifted(s: string, t: Text)
    ensures MarkList(Lift(s) + t) == MarkList(t) && MarksOf(Lift(s) + t) == MarksOf(t)
  {
    MarksApart(Lift(s), t);
    if s == "" {
      assert Lift(s) + t == t;
    } else {
      SkipLifted(s[1..], t);
      assert (Lift(s) + t)[1..] == Lift(s[1..]) + t;
    }
  }

  /** The placeholders come through the splice in their order. */
  lemma {:induction false} ScanKeepsMarks(t: Text, source: string, threshold: nat, put: string)
    requires threshold >= 1
    ensures var u := Scan(t, Lift(source), threshold, Lift(put));
            MarkList(u) == MarkList(t) && MarksOf(u) == MarksOf(t)
    decreases |t|
  {
    if t != [] {
      var n, symbols := Longest(t, 0, Lift(source), 0), Lift(source);
      if n >= threshold {
        RepeatedIsLifted(t, source, n);
        var s: string :| t[..n] == Lift(s);
        assert t == Lift(s) + t[n..];
        SkipLifted(s, t[n..]);
        ScanKeepsMarks(t[n..], source, threshold, put);
        SkipLifted(put, Scan(t[n..], symbols, threshold, Lift(put)));
      } else {
        ScanKeepsMarks(t[1..], source, threshold, put);
        var after := Scan(t[1..], symbols, threshold, Lift(put));
        assert ([t[0]] + after)[1..] == after;
        MarksSplit(t);
        MarksSplit([t[0]] + after);
      }
    }
  }

  // ----- What the scan leaves reads nothing like a placeholder -----

  predicate Plain(s: string) {
    forall k :: 0 <= k < |s| ==> s[k] as int < 128
  }

  predicate Foreign(s: string) {
    s != "" && forall k :: 0 <= k < |s| ==> s[k] as int >= 128
  }

  /** As far as `c` begins with plain characters, `b` begins with the same. */
  ghost predicate SameStart(b: string, c: string) {
    forall k :: 0 <= k <= |c| && Plain(c[..k]) ==> c[..k] <= b
  }

  lemma SameStartBehind(a: string, b: string, c: string)
    requires SameStart(b, c)
    ensures SameStart(a + b, a + c)
  {
    forall k | 0 <= k <= |a + c| && Plain((a + c)[..k]) ensures (a + c)[..k] <= a + b {
      if k > |a| {
        var m := k - |a|;
        assert (a + c)[..k] == a + c[..m];
        assert forall x :: 0 <= x < m ==> c[..m][x] == (a + c)[..k][|a| + x];
        assert Plain(c[..m]);
        assert a + c[..m] <= a + b;
      } else {
        assert (a + c)[..k] == a[..k];
      }
    }
  }

  lemma LikeFromStart(b: string, c: string)
    requires SameStart(b, c) && TokenLike(c)
    ensures TokenLike(b)
  {
    assert Plain(c[..24]);
    assert c[..24] <= b;
    assert forall k :: 0 <= k < 24 ==> b[k] == c[..24][k] == c[k];
  }

  lemma KeptInFront(a: string, b: string, c: string)
    requires SameStart(b, c) && TokenFree(a + b) && TokenFree(c)
    ensures TokenFree(a + c)
  {
    forall r | 0 <= r <= |a + c| ensures !TokenLike((a + c)[r..]) {
      if r <= |a| {
        SameStartBehind(a[r..], b, c);
        assert (a + c)[r..] == a[r..] + c && (a + b)[r..] == a[r..] + b;
        if TokenLike(a[r..] + c) {
          LikeFromStart(a[r..] + b, a[r..] + c);
        }
      } else {
        assert (a + c)[r..] == c[r - |a|..];
      }
    }
  }

  lemma PutInFront(put: string, b: string, c: string)
    requires Foreign(put) && TokenFree(c)
    ensures SameStart(b, put + c) && TokenFree(put + c)
  {
    assert forall k :: 0 < k <= |put + c| ==> (put + c)[..k][0] == put[0];
    forall r | 0 <= r <= |put + c| ensures !TokenLike((put + c)[r..]) {
      if r < |put| {
        assert (put + c)[r..][0] == put[r];
      } else {
        assert (put + c)[r..] == c[r - |put|..];
      }
    }
  }

  /** What the scan leaves reads `c`, which is nothing like a placeholder if the text is not. */
  lemma {:induction false} ScanSpells(t: Text, lines: seq<string>, b: string, source: string, threshold: nat,
                                      put: string)
    returns (c: string)
    requires threshold >= 1 && Foreign(put) && Spells(t, lines, b) && TokenFree(b)
    ensures Spells(Scan(t, Lift(source), threshold, Lift(put)), lines, c) && SameStart(b, c) && TokenFree(c)
    decreases |t|
  {
    if t == [] {
      c := "";
    } else {
      var n, symbols := Longest(t, 0, Lift(source), 0), Lift(source);
      if n >= threshold {
        RepeatedIsLifted(t, source, n);
        var s: string :| t[..n] == Lift(s);
        assert t == Lift(s) + t[n..];
        LiftedSpells(s, t[n..], lines, b);
        TokenFreeBehind(b, n);
        var rest := ScanSpells(t[n..], lines, b[n..], source, threshold, put);
        c := put + rest;
        PutInFront(put, b, rest);
        LiftedSpells(put, Scan(t[n..], symbols, threshold, Lift(put)), lines, c);
        assert c[|put|..] == rest;
      } else {
        var width := Reach(t, lines);
        var front := b[..width];
        TokenFreeBehind(b, width);
        var rest := ScanSpells(t[1..], lines, b[width..], source, threshold, put);
        c := front + rest;
        assert b == front + b[width..];
        SameStartBehind(front, b[width..], rest);
        KeptInFront(front, b[width..], rest);
        var after := Scan(t[1..], symbols, threshold, Lift(put));
        assert ([t[0]] + after)[1..] == after && c[width..] == rest;
      }
    }
  }

  // ----- The whole transformation -----

  const REPLACEMENT: string := "按本镜主动作与首尾状态概括呈现，不复述小说原文"

  function SpansOf(body: string, source: string): (spans: seq<Span>)
    ensures InOrder(spans, 0, 0, |body|)
  {
    LooseSpans(body, source, Threshold(SOURCE_EXCERPT_MIN_OVERLAP), 0);
    NaiveSpans(body, source, Threshold(SOURCE_EXCERPT_MIN_OVERLAP), 0)
  }

  /** What is sent. */
  ghost function Sent(text: string, excerpt: string, lines: seq<string>): string {
    if excerpt == "" then text
    else
      var p := Place(text, lines, |lines|);
      PutBack(Substituted(p.body, SpansOf(p.body, excerpt), REPLACEMENT, 0), p.swaps)
  }

  /** ensure_source_excerpt_in_prompt between the splitting off of the arguments and the
      final tidying; `excerpt` and `lines` come stripped. */
  method EnsureSourceExcerpt(text: string, excerpt: string, lines: seq<string>) returns (sent: string)
    ensures sent == Sent(text, excerpt, lines)
  {
    if excerpt == "" {
      return text;
    }
    var body, swaps := Protect(text, lines);
    var spans := FindSpans(body, excerpt, SOURCE_EXCERPT_MIN_OVERLAP);
    assert spans == SpansOf(body, excerpt);
    var spliced := Splice(body, spans, REPLACEMENT);
    sent := Restore(spliced, swaps);
  }

  // ----- What is sent -----

  /** No line is part of an earlier line's placeholder, the text reads nothing like a
      placeholder, and what the source has of the protected text lies outside the
      placeholders. */
  ghost predicate Untangled(text: string, excerpt: string, lines: seq<string>) {
    && TokenFree(text) && QuietLines(lines) && NoClashFrom(lines, 0)
    && Clear(Marked(Lift(text), lines, 0, |lines|), excerpt, SOURCE_EXCERPT_MIN_OVERLAP)
  }

  lemma ReplacementIsForeign()
    ensures Bare(REPLACEMENT) && Foreign(REPLACEMENT)
  {
  }

  /** The text with symbols for placeholders, scanned. */
  function ScannedSymbols(text: string, excerpt: string, lines: seq<string>): Text {
    Scan(Marked(Lift(text), lines, 0, |lines|), Lift(excerpt), SOURCE_EXCERPT_MIN_OVERLAP, Lift(REPLACEMENT))
  }

  lemma SplicedOnSymbols(text: string, excerpt: string, lines: seq<string>)
    requires Untangled(text, excerpt, lines)
    ensures var body := Place(text, lines, |lines|).body;
            Substituted(body, SpansOf(body, excerpt), REPLACEMENT, 0) == Render(ScannedSymbols(text, excerpt, lines))
  {
    var marked, w := Marked(Lift(text), lines, 0, |lines|), SOURCE_EXCERPT_MIN_OVERLAP;
    PlaceOnSymbols(text, lines, |lines|);
    SplicedIsScanned(Render(marked), excerpt);
    ScanRendered(marked, excerpt, w, REPLACEMENT);
  }

  lemma SplicedIsScanned(body: string, excerpt: string)
    ensures Substituted(body, SpansOf(body, excerpt), REPLACEMENT, 0)
              == Scan(body, excerpt, SOURCE_EXCERPT_MIN_OVERLAP, REPLACEMENT)
  {
    LooseSpans(body, excerpt, SOURCE_EXCERPT_MIN_OVERLAP, 0);
    SubstitutedIsScanned(body, excerpt, SOURCE_EXCERPT_MIN_OVERLAP, REPLACEMENT, 0);
    assert body[0..] == body;
  }

  lemma ScannedMarks(text: string, excerpt: string, lines: seq<string>)
    ensures MarksOf(ScannedSymbols(text, excerpt, lines)) == Indices(Lift(text), lines, 0, |lines|)
  {
    MarkedMarks(Lift(text), lines, 0, |lines|);
    ScanKeepsMarks(Marked(Lift(text), lines, 0, |lines|), excerpt, SOURCE_EXCERPT_MIN_OVERLAP, REPLACEMENT);
  }

  /** Then the code does on characters what it would do if each placeholder were one symbol:
      every placeholder comes through the splice and is spelled out as its line. */
  lemma SentOnSymbols(text: string, excerpt: string, lines: seq<string>)
    requires Untangled(text, excerpt, lines) && excerpt != ""
    ensures Sent(text, excerpt, lines)
              == Render(Expand(ScannedSymbols(text, excerpt, lines), lines, Indices(Lift(text), lines, 0, |lines|)))
  {
    var n := |lines|;
    PlaceOnSymbols(text, lines, n);
    SplicedOnSymbols(text, excerpt, lines);
    MarkedSpells(text, lines, n);
    ReplacementIsForeign();
    var c := ScanSpells(Marked(Lift(text), lines, 0, n), lines, text, excerpt, SOURCE_EXCERPT_MIN_OVERLAP, REPLACEMENT);
    PutBackSpelled(Lift(text), lines, ScannedSymbols(text, excerpt, lines), c);
  }

  lemma {:induction false} FoundAtItsTurn(text: string, lines: seq<string>, i: nat, n: nat)
    requires i < n <= |lines| && TokenFree(text) && QuietLines(lines) && NoClashFrom(lines, 0) && lines[i] != ""
    ensures Contains(Place(text, lines, i).body, lines[i]) <==> i in Indices(Lift(text), lines, 0, n)
    decreases n
  {
    if n > i + 1 {
      FoundAtItsTurn(text, lines, i, n - 1);
    } else {
      PlaceOnSymbols(text, lines, i);
      MarkedMarks(Lift(text), lines, 0, i);
      ReplaceLine(Marked(Lift(text), lines, 0, i), lines[i], i);
    }
  }

  /** Every line that a placeholder protected reappears verbatim in what is sent. */
  lemma ProtectedLinesReappear(text: string, excerpt: string, lines: seq<string>, i: nat)
    requires Untangled(text, excerpt, lines) && excerpt != ""
    requires i < |lines| && lines[i] != "" && Contains(Place(text, lines, i).body, lines[i])
    ensures Contains(Sent(text, excerpt, lines), lines[i])
  {
    var scanned, all := ScannedSymbols(text, excerpt, lines), Indices(Lift(text), lines, 0, |lines|);
    SentOnSymbols(text, excerpt, lines);
    FoundAtItsTurn(text, lines, i, |lines|);
    ScannedMarks(text, excerpt, lines);
    MarkIsSpelled(scanned, lines, all, i);
    AllSpelled(scanned, lines, all);
    ReplaceLine(Expand(scanned, lines, all), lines[i], i);
  }

  lemma {:induction false} AllSpelled(t: Text, lines: seq<string>, done: set<nat>)
    requires MarksOf(t) <= done && forall i :: i in done ==> i < |lines|
    ensures MarksOf(Expand(t, lines, done)) == {}
  {
    if t != [] {
      MarksSplit(t);
      AllSpelled(t[1..], lines, done);
      MarksApart(Spelled(t[0], lines, done), Expand(t[1..], lines, done));
    }
  }

  lemma CleanHasNoSpans(body: string, source: string)
    requires Clean(body, source, Threshold(SOURCE_EXCERPT_MIN_OVERLAP))
    ensures Substituted(body, SpansOf(body, source), REPLACEMENT, 0) == body
  {
    NoSpansMeansNoRepeat(body, source, SOURCE_EXCERPT_MIN_OVERLAP);
    assert SpansOf(body, source) == [];
    assert body[0..] == body;
  }

  /** A prompt that repeats nothing of the source outside the allowed lines. */
  ghost predicate CleanPrompt(text: string, excerpt: string, lines: seq<string>) {
    Clean(Place(text, lines, |lines|).body, excerpt, Threshold(SOURCE_EXCERPT_MIN_OVERLAP))
  }

  lemma CleanGoesThereAndBack(text: string, excerpt: string, lines: seq<string>)
    requires CleanPrompt(text, excerpt, lines) && excerpt != ""
    ensures Sent(text, excerpt, lines) == ThereAndBack(text, lines)
  {
    CleanHasNoSpans(Place(text, lines, |lines|).body, excerpt);
  }

  lemma ShortSourceIsClean(text: string, excerpt: string, lines: seq<string>)
    requires |excerpt| < SOURCE_EXCERPT_MIN_OVERLAP
    ensures CleanPrompt(text, excerpt, lines)
  {
    var body, w := Place(text, lines, |lines|).body, Threshold(SOURCE_EXCERPT_MIN_OVERLAP);
    NoSpansInShortSource(body, excerpt, w, 0);
    NoSpansMeansNoRepeat(body, excerpt, SOURCE_EXCERPT_MIN_OVERLAP);
  }

  /** Every such prompt without "MANJU_ALLOWED_VERBATIM_" and a digit is sent as it is exactly
      when no line is part of an earlier line's placeholder. */
  lemma CleanPromptsUnchangedExact(lines: seq<string>)
    requires LongestFirst(lines) && QuietLines(lines)
    ensures (forall text, excerpt :: TokenFree(text) && CleanPrompt(text, excerpt, lines) ==>
                                       Sent(text, excerpt, lines) == text)
              <==> NoClashFrom(lines, 0)
  {
    if NoClashFrom(lines, 0) {
      forall text, excerpt | TokenFree(text) && CleanPrompt(text, excerpt, lines)
        ensures Sent(text, excerpt, lines) == text
      {
        if excerpt != "" {
          CleanGoesThereAndBack(text, excerpt, lines);
          ComesBack(text, lines);
        }
      }
    } else {
      var i, j := LastClash(lines, 0);
      LineIsLost(lines, i, j);
      ShortSourceIsClean(lines[i], "x", lines);
      CleanGoesThereAndBack(lines[i], "x", lines);
      assert TokenFree(lines[i]) && CleanPrompt(lines[i], "x", lines);
    }
  }

  /** Whatever the text, the source and the lines: before the placeholders are turned back,
      the body is clean fragments joined by the stock phrase. */
  lemma SentIsCleanFragments(text: string, excerpt: string, lines: seq<string>)
    returns (fs: seq<string>)
    requires excerpt != ""
    ensures fs != []
    ensures forall k :: 0 <= k < |fs| ==> Clean(fs[k], excerpt, Threshold(SOURCE_EXCERPT_MIN_OVERLAP))
    ensures Sent(text, excerpt, lines) == PutBack(Join(fs, REPLACEMENT), Place(text, lines, |lines|).swaps)
  {
    var n, body := Threshold(SOURCE_EXCERPT_MIN_OVERLAP), Place(text, lines, |lines|).body;
    var spans := SpansOf(body, excerpt);
    fs := Fragments(body, spans, 0);
    SubstitutedIsJoined(body, spans, REPLACEMENT, 0);
    forall k | 0 <= k < |fs| ensures Clean(fs[k], excerpt, n) {
      FragmentsAreClean(body, excerpt, n, 0, 0, k);
    }
  }

  // ----- Tangled inputs -----

  /** The second line, one letter, occurs in the placeholder of the first. */
  lemma LetterInPlaceholder()
    ensures var lines := ["你好世界", "A"];
            Sent("你好世界", "甲", lines) == TokenText(0) == "__MANJU_ALLOWED_VERBATIM_0__"
  {
    TokenIs(0);
    var lines := ["你好世界", "A"];
    assert Token(0)[3] == Letter(3) == 'A';
    assert "A" <= Token(0)[3..];
    ContainsAt(Token(0), "A", 3);
    BareIsQuiet("你好世界");
    BareIsQuiet("A");
    assert QuietLines(lines);
    LineIsLost(lines, 0, 1);
    ShortSourceIsClean("你好世界", "甲", lines);
    CleanGoesThereAndBack("你好世界", "甲", lines);
  }

  lemma NextScore(k: nat, r: nat) returns (x: nat)
    requires r < |Token(k)|
    ensures r <= x < |Token(k)| && Token(k)[x] == '_' && (x - r < 10 || x - r <= |Decimal(k)|)
  {
    x := if r <= 1 then r else if r <= 7 then 7 else if r <= 15 then 15 else if r <= 24 then 24
         else if r < |Token(k)| - 1 then |Token(k)| - 2 else r;
    assert x < 25 ==> Token(k)[x] == Letter(x);
  }

  lemma OneScoreStops(u: string, x: string, i: nat, a: nat)
    requires Bare(x) && a + 1 < |u| && u[a] == '_'
    ensures Agreement(u, 0, x + "_", i) <= a + 1
  {
    if i <= |x| + 1 {
      AgreementOver(u, 0, x + "_", i, a + 2);
      assert a + i < |x| ==> u[a] != (x + "_")[a - 0 + i];
    }
  }

  lemma HeadIsTaken(x: string)
    requires Bare(x) && |x| >= SOURCE_EXCERPT_MIN_OVERLAP
    ensures Longest(x + Token(0), 0, x + "_", 0) == |x| + 1
  {
    var u, source := x + Token(0), x + "_";
    assert Token(0)[0] == Letter(0) == '_';
    AgreementOver(u, 0, source, 0, |x| + 1);
    LongestAtLeast(u, 0, source, 0, 0);
    var j := LongestSomewhere(u, 0, source, 0);
    assert Agreement(u, 0, source, j) <= |x| + 1;
  }

  lemma TailIsKept(x: string, put: string)
    requires Bare(x)
    ensures Scan(Token(0)[1..], x + "_", SOURCE_EXCERPT_MIN_OVERLAP, put) == Token(0)[1..]
  {
    var tail, w := Token(0)[1..], SOURCE_EXCERPT_MIN_OVERLAP;
    forall r | 0 <= r < |tail| ensures Longest(tail[r..] + "", 0, x + "_", 0) < w {
      var a := NextScore(0, r + 1);
      var u := tail[r..] + "";
      assert u == tail[r..] && |Decimal(0)| == 1;
      var j := LongestSomewhere(u, 0, x + "_", 0);
      if a < |Token(0)| - 1 {
        assert u[a - r - 1] == Token(0)[a];
        OneScoreStops(u, x, j, a - r - 1);
      }
    }
    SkipScan(tail, "", x + "_", w, put);
    assert tail + "" == tail;
  }

  lemma HeadIsScanned(x: string)
    requires Bare(x) && |x| >= SOURCE_EXCERPT_MIN_OVERLAP
    ensures var body := x + Token(0);
            Substituted(body, SpansOf(body, x + "_"), REPLACEMENT, 0) == REPLACEMENT + Token(0)[1..]
  {
    var body, source, w := x + Token(0), x + "_", SOURCE_EXCERPT_MIN_OVERLAP;
    SplicedIsScanned(body, source);
    assert Scan(body, source, w, REPLACEMENT) == REPLACEMENT + Token(0)[1..] by {
      HeadIsTaken(x);
      assert body[|x| + 1..] == Token(0)[1..];
      TailIsKept(x, REPLACEMENT);
    }
  }

  lemma PlaceLast(x: string, line: string)
    requires Bare(x) && Bare(line) && line != "" && NoneStarts(x, line, line)
    ensures Place(x + line, [line], 1) == Placed(x + Token(0), [Swap(Token(0), line)])
  {
    SingleHasNoToken(x + line, 0);
    SkipStretch(x, line, line, Token(0));
    assert Replace(line, line, Token(0)) == Token(0) by {
      assert line[|line|..] == "" && Token(0) + "" == Token(0);
    }
    assert Place(x + line, [line], 0) == Placed(x + line, []);
    assert [] + [Swap(Token(0), line)] == [Swap(Token(0), line)];
  }

  lemma HeadlessIsNoToken(put: string)
    ensures Replace(REPLACEMENT + Token(0)[1..], Token(0), put) == REPLACEMENT + Token(0)[1..]
  {
    ReplacementIsForeign();
    assert Token(0)[0] == Letter(0) == '_';
    forall r | 0 <= r < |REPLACEMENT| ensures !(Token(0) <= REPLACEMENT[r..] + Token(0)[1..]) {
      assert (REPLACEMENT[r..] + Token(0)[1..])[0] == REPLACEMENT[r];
    }
    SkipStretch(REPLACEMENT, Token(0)[1..], Token(0), put);
    NotInside(Token(0)[1..], Token(0), put);
  }

  /** A source with an underscore behind a long repeat takes the head of a placeholder with it;
      what is left of the placeholder is sent, and the line is not. */
  lemma SourceTakesPlaceholder(x: string, line: string)
    requires Bare(x) && |x| >= SOURCE_EXCERPT_MIN_OVERLAP && Bare(line) && line != "" && NoneStarts(x, line, line)
    ensures Sent(x + line, x + "_", [line]) == REPLACEMENT + Token(0)[1..]
  {
    PlaceLast(x, line);
    HeadIsScanned(x);
    HeadlessIsNoToken(line);
    PutBackLast(REPLACEMENT + Token(0)[1..], [], Swap(Token(0), line));
    assert [] + [Swap(Token(0), line)] == [Swap(Token(0), line)];
  }
}
