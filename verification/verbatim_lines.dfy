/** Allowed lines of a prompt (the two loops over them in ensure_source_excerpt_in_prompt,
    app/compiler.py): each gives way to a placeholder and is turned back later. */
module VerbatimLines {
  import opened OverlapSpans
  import opened PlaceholderTexts

  datatype Swap = Swap(token: string, line: string)
  datatype Placed = Placed(body: string, swaps: seq<Swap>)

  /** An underscore is added for as long as the body has the token. */
  function FreshToken(body: string, token: string): (t: string)
    ensures token <= t && !Contains(body, t)
    decreases |body| + 1 - |token|
  {
    if Contains(body, token) then FreshToken(body, token + "_") else token
  }

  ghost function PlaceOne(p: Placed, index: nat, line: string): Placed {
    if line == "" || !Contains(p.body, line) then p
    else
      var token := FreshToken(p.body, Token(index));
      Placed(Replace(p.body, line, token), p.swaps + [Swap(token, line)])
  }

  /** The body and the swaps after the first `n` lines. */
  ghost function Place(text: string, lines: seq<string>, n: nat): (p: Placed)
    requires n <= |lines|
    ensures forall k :: 0 <= k < |p.swaps| ==> p.swaps[k].token != ""
  {
    if n == 0 then Placed(text, []) else PlaceOne(Place(text, lines, n - 1), n - 1, lines[n - 1])
  }

  /** The placeholders turned back in the order in which they were placed. */
  function PutBack(body: string, swaps: seq<Swap>): string
    requires forall k :: 0 <= k < |swaps| ==> swaps[k].token != ""
  {
    if swaps == [] then body
    else
      var last := swaps[|swaps| - 1];
      Replace(PutBack(body, swaps[..|swaps| - 1]), last.token, last.line)
  }

  /** The first loop. */
  method Protect(text: string, lines: seq<string>) returns (body: string, swaps: seq<Swap>)
    ensures Placed(body, swaps) == Place(text, lines, |lines|)
  {
    body, swaps := text, [];
    for i := 0 to |lines|
      invariant Placed(body, swaps) == Place(text, lines, i)
    {
      if lines[i] == "" || !Contains(body, lines[i]) {
        continue;
      }
      var token := TokenText(i);
      TokenIs(i);
      while Contains(body, token)
        invariant FreshToken(body, token) == FreshToken(body, Token(i))
        decreases |body| + 1 - |token|
      {
        token := token + "_";
      }
      body := Replace(body, lines[i], token);
      swaps := swaps + [Swap(token, lines[i])];
    }
  }

  /** The last loop. */
  method Restore(body: string, swaps: seq<Swap>) returns (r: string)
    requires forall k :: 0 <= k < |swaps| ==> swaps[k].token != ""
    ensures r == PutBack(body, swaps)
  {
    r := body;
    for k := 0 to |swaps|
      invariant r == PutBack(body, swaps[..k])
    {
      assert swaps[..k + 1][..k] == swaps[..k];
      r := Replace(r, swaps[k].token, swaps[k].line);
    }
    assert swaps[..|swaps|] == swaps;
  }

  // ----- The same on symbols -----

  predicate QuietLines(lines: seq<string>) {
    forall i :: 0 <= i < |lines| ==> Quiet(lines[i])
  }

  /** Lines `lo` to `n` give way to symbols. */
  function Marked(t: Text, lines: seq<string>, lo: nat, n: nat): Text
    requires lo <= n <= |lines|
    decreases n
  {
    if n == lo then t
    else
      var before := Marked(t, lines, lo, n - 1);
      if Found(before, lines[n - 1]) then Replace(before, Lift(lines[n - 1]), [Mark(n - 1)]) else before
  }

  predicate Found(t: Text, line: string) {
    line != "" && Contains(t, Lift(line))
  }

  /** Which lines do. */
  function Indices(t: Text, lines: seq<string>, lo: nat, n: nat): (s: set<nat>)
    requires lo <= n <= |lines|
    ensures forall i :: i in s ==> lo <= i < n
    decreases n
  {
    if n == lo then {}
    else if Found(Marked(t, lines, lo, n - 1), lines[n - 1]) then Indices(t, lines, lo, n - 1) + {n - 1}
    else Indices(t, lines, lo, n - 1)
  }

  ghost function Swaps(t: Text, lines: seq<string>, lo: nat, n: nat): (s: seq<Swap>)
    requires lo <= n <= |lines|
    ensures forall k :: 0 <= k < |s| ==> s[k].token != ""
    decreases n
  {
    if n == lo then []
    else if Found(Marked(t, lines, lo, n - 1), lines[n - 1]) then
      Swaps(t, lines, lo, n - 1) + [Swap(Token(n - 1), lines[n - 1])]
    else Swaps(t, lines, lo, n - 1)
  }

  lemma {:induction false} MarkedMarks(t: Text, lines: seq<string>, lo: nat, n: nat)
    requires lo <= n <= |lines|
    ensures MarksOf(Marked(t, lines, lo, n)) == MarksOf(t) + Indices(t, lines, lo, n)
    decreases n
  {
    if n > lo {
      MarkedMarks(t, lines, lo, n - 1);
      if lines[n - 1] != "" {
        MarksAfterReplace(Marked(t, lines, lo, n - 1), lines[n - 1], n - 1);
      }
    }
  }

  lemma {:induction false} MarkedExpands(t: Text, lines: seq<string>, lo: nat, n: nat, done: set<nat>)
    requires lo <= n <= |lines| && Indices(t, lines, lo, n) <= done
    ensures Expand(Marked(t, lines, lo, n), lines, done) == Expand(t, lines, done)
    decreases n
  {
    if n > lo {
      MarkedExpands(t, lines, lo, n - 1, done);
      if Found(Marked(t, lines, lo, n - 1), lines[n - 1]) {
        assert n - 1 in Indices(t, lines, lo, n);
        ProtectOne(Marked(t, lines, lo, n - 1), lines, n - 1, done);
      }
    }
  }

  /** No line from `lo` on is part of the placeholder of an earlier one from `lo` on. */
  ghost predicate NoClashFrom(lines: seq<string>, lo: nat) {
    forall i, j :: lo <= i < j < |lines| && lines[j] != "" ==> !Contains(Token(i), lines[j])
  }

  lemma PlaceFresh(p: Placed, index: nat, line: string)
    requires line != "" && Contains(p.body, line) && !Contains(p.body, Token(index))
    ensures PlaceOne(p, index, line)
              == Placed(Replace(p.body, line, Token(index)), p.swaps + [Swap(Token(index), line)])
  {
  }

  /** One round of the first loop is one round on symbols. */
  lemma PlaceOnText(t: Text, swaps: seq<Swap>, index: nat, line: string)
    requires Quiet(line) && line != "" && FakeFree(t, index) && index !in MarksOf(t)
    requires forall j :: j in MarksOf(t) ==> !Contains(Token(j), line)
    ensures PlaceOne(Placed(Render(t), swaps), index, line)
              == if Found(t, line)
                 then Placed(Render(Replace(t, Lift(line), [Mark(index)])), swaps + [Swap(Token(index), line)])
                 else Placed(Render(t), swaps)
  {
    ReplaceLine(t, line, index);
    ReplaceToken(t, index, "");
    if Found(t, line) {
      PlaceFresh(Placed(Render(t), swaps), index, line);
    }
  }

  lemma PlaceStep(t: Text, lines: seq<string>, lo: nat, n: nat)
    requires lo < n <= |lines| && QuietLines(lines) && NoClashFrom(lines, lo)
    requires MarksOf(t) == {} && FakeFree(Marked(t, lines, lo, n - 1), n - 1)
    ensures PlaceOne(Placed(Render(Marked(t, lines, lo, n - 1)), Swaps(t, lines, lo, n - 1)), n - 1, lines[n - 1])
              == Placed(Render(Marked(t, lines, lo, n)), Swaps(t, lines, lo, n))
  {
    MarkedMarks(t, lines, lo, n - 1);
    if lines[n - 1] != "" {
      PlaceOnText(Marked(t, lines, lo, n - 1), Swaps(t, lines, lo, n - 1), n - 1, lines[n - 1]);
    }
  }

  /** At its turn, each placeholder is all that reads like it. */
  ghost predicate NoFakes(t: Text, lines: seq<string>, lo: nat, n: nat, u: Text)
    requires lo <= n <= |lines|
  {
    forall m :: lo <= m < n && m in Indices(t, lines, lo, n) ==> FakeFree(Expand(u, lines, Indices(t, lines, lo, m)), m)
  }

  lemma PutBackLast(body: string, swaps: seq<Swap>, last: Swap)
    requires last.token != "" && forall k :: 0 <= k < |swaps| ==> swaps[k].token != ""
    ensures PutBack(body, swaps + [last]) == Replace(PutBack(body, swaps), last.token, last.line)
  {
    assert (swaps + [last])[..|swaps|] == swaps;
  }

  lemma PutBackStep(u: Text, lines: seq<string>, done: set<nat>, m: nat)
    requires m < |lines| && m !in done && FakeFree(Expand(u, lines, done), m)
    ensures Replace(Render(Expand(u, lines, done)), Token(m), lines[m]) == Render(Expand(u, lines, done + {m}))
  {
    ReplaceToken(Expand(u, lines, done), m, lines[m]);
    RestoreOne(u, lines, done, m);
  }

  lemma FewerNoFakes(t: Text, lines: seq<string>, lo: nat, n: nat, u: Text)
    requires lo < n <= |lines| && NoFakes(t, lines, lo, n, u)
    ensures NoFakes(t, lines, lo, n - 1, u)
    ensures Found(Marked(t, lines, lo, n - 1), lines[n - 1]) ==>
              FakeFree(Expand(u, lines, Indices(t, lines, lo, n - 1)), n - 1)
  {
    forall m | lo <= m < n - 1 && m in Indices(t, lines, lo, n - 1)
      ensures FakeFree(Expand(u, lines, Indices(t, lines, lo, m)), m)
    {
      assert m in Indices(t, lines, lo, n);
    }
    if Found(Marked(t, lines, lo, n - 1), lines[n - 1]) {
      assert n - 1 in Indices(t, lines, lo, n);
    }
  }

  /** The last loop turns back one symbol after the other. */
  lemma {:induction false} PutBackOnSymbols(t: Text, lines: seq<string>, lo: nat, n: nat, u: Text)
    requires lo <= n <= |lines| && NoFakes(t, lines, lo, n, u)
    ensures PutBack(Render(u), Swaps(t, lines, lo, n)) == Render(Expand(u, lines, Indices(t, lines, lo, n)))
    decreases n
  {
    if n == lo {
      ExpandNone(u, lines);
    } else {
      FewerNoFakes(t, lines, lo, n, u);
      PutBackOnSymbols(t, lines, lo, n - 1, u);
      if Found(Marked(t, lines, lo, n - 1), lines[n - 1]) {
        PutBackLast(Render(u), Swaps(t, lines, lo, n - 1), Swap(Token(n - 1), lines[n - 1]));
        PutBackStep(u, lines, Indices(t, lines, lo, n - 1), n - 1);
      }
    }
  }

  lemma {:induction false} ExpandNone(t: Text, lines: seq<string>)
    ensures Expand(t, lines, {}) == t
  {
    if t != [] {
      ExpandNone(t[1..], lines);
    }
  }

  // ----- What a text with placeholders reads -----

  /** `u` reads `b` once its placeholders are spelled out. */
  ghost predicate Spells(u: Text, lines: seq<string>, b: string) {
    if u == [] then b == ""
    else if u[0].Char? then b != "" && b[0] == u[0].c && Spells(u[1..], lines, b[1..])
    else
      && u[0].index < |lines| && lines[u[0].index] != "" && lines[u[0].index] <= b
      && Spells(u[1..], lines, b[|lines[u[0].index]|..])
  }

  lemma {:induction false} LiftedSpells(a: string, u: Text, lines: seq<string>, b: string)
    ensures Spells(Lift(a) + u, lines, b) <==> a <= b && Spells(u, lines, b[if a <= b then |a| else 0..])
  {
    if a == "" {
      assert Lift(a) + u == u && b[0..] == b;
    } else {
      assert (Lift(a) + u)[0] == Char(a[0]) && (Lift(a) + u)[1..] == Lift(a[1..]) + u;
      if b != "" {
        SameFront(a, b);
        LiftedSpells(a[1..], u, lines, b[1..]);
        if a <= b {
          assert b[1..][|a| - 1..] == b[|a|..];
        }
      }
    }
  }

  lemma {:induction false} SpellsAfterReplace(u: Text, lines: seq<string>, b: string, i: nat)
    requires Spells(u, lines, b) && i < |lines| && lines[i] != ""
    ensures Spells(Replace(u, Lift(lines[i]), [Mark(i)]), lines, b)
  {
    var line := Lift(lines[i]);
    if u != [] {
      if line <= u {
        assert u == line + u[|line|..];
        LiftedSpells(lines[i], u[|line|..], lines, b);
        SpellsAfterReplace(u[|line|..], lines, b[|line|..], i);
        assert ([Mark(i)] + Replace(u[|line|..], line, [Mark(i)]))[1..] == Replace(u[|line|..], line, [Mark(i)]);
      } else {
        SpellsAfterReplace(u[1..], lines, if u[0].Char? then b[1..] else b[|lines[u[0].index]|..], i);
        assert ([u[0]] + Replace(u[1..], line, [Mark(i)]))[1..] == Replace(u[1..], line, [Mark(i)]);
      }
    }
  }

  lemma {:induction false} SpellsExpanded(u: Text, lines: seq<string>, b: string, done: set<nat>)
    requires Spells(u, lines, b)
    ensures Spells(Expand(u, lines, done), lines, b)
  {
    if u != [] {
      var rest := Expand(u[1..], lines, done);
      SpellsExpanded(u[1..], lines, if u[0].Char? then b[1..] else b[|lines[u[0].index]|..], done);
      if u[0].Mark? && u[0].index in done {
        LiftedSpells(lines[u[0].index], rest, lines, b);
      } else {
        assert ([u[0]] + rest)[1..] == rest;
      }
    }
  }

  lemma {:induction false} SpellsMarked(t: Text, lines: seq<string>, lo: nat, n: nat, b: string)
    requires lo <= n <= |lines| && Spells(t, lines, b)
    ensures Spells(Marked(t, lines, lo, n), lines, b)
    decreases n
  {
    if n > lo {
      SpellsMarked(t, lines, lo, n - 1, b);
      if lines[n - 1] != "" {
        SpellsAfterReplace(Marked(t, lines, lo, n - 1), lines, b, n - 1);
      }
    }
  }

  /** Where `a` has no underscore next to another, it can only be read from characters. */
  lemma {:induction false} FollowText(u: Text, lines: seq<string>, b: string, a: string, n: nat)
    requires Spells(u, lines, b) && a <= Render(u) && n < |a|
    requires forall x :: 0 <= x < n && a[x] == '_' ==> a[x + 1] != '_'
    ensures n <= |b| && a[..n] == b[..n]
  {
    if n > 0 {
      RenderFront(u);
      SameFront(a, Render(u));
      FollowText(u[1..], lines, b[1..], a[1..], n - 1);
      assert a[..n] == [a[0]] + a[1..][..n - 1] && b[..n] == [b[0]] + b[1..][..n - 1];
    }
  }

  lemma TailIsNoFake(u: Text, lines: seq<string>, b: string, m: nat)
    requires Spells(u, lines, b) && !TokenLike(b)
    ensures !(Token(m)[2..] <= Render(u))
  {
    var t, a := Token(m), Token(m)[2..];
    forall x | 0 <= x < 24 && a[x] == '_' ensures a[x + 1] != '_' {
      ScoresApart(m, x + 2);
    }
    assert forall k :: 0 <= k < 23 ==> a[k] == t[k + 2] == Letter(k + 2);
    assert a[23] == t[25];
    if a <= Render(u) {
      FollowText(u, lines, b, a, 24);
      assert forall k :: 0 <= k < 24 ==> b[k] == b[..24][k] == a[..24][k] == a[k];
    }
  }

  lemma ScoredTailIsNoFake(u: Text, lines: seq<string>, b: string, m: nat)
    requires Spells(u, lines, b) && TokenFree(b)
    ensures !(Token(m)[1..] <= Render(u)) && !(Token(m)[2..] <= Render(u))
  {
    var t, a := Token(m), Token(m)[1..];
    assert b[0..] == b;
    TailIsNoFake(u, lines, b, m);
    assert a[0] == t[1] == Letter(1) == '_' && a[1] == t[2] == Letter(2) == 'M';
    if a <= Render(u) {
      RenderFront(u);
      SameFront(a, Render(u));
      assert a[1..] == t[2..];
      TailIsNoFake(u[1..], lines, b[1..], m);
    }
  }

  /** A text that reads nothing like a placeholder has no fakes in it, wherever its lines
      stand behind placeholders. */
  lemma {:induction false} TextIsFakeFree(u: Text, lines: seq<string>, b: string, m: nat)
    requires Spells(u, lines, b) && TokenFree(b)
    ensures FakeFree(u, m)
  {
    if u != [] {
      var width := if u[0].Char? then 1 else |lines[u[0].index]|;
      TokenFreeBehind(b, width);
      TextIsFakeFree(u[1..], lines, b[width..], m);
      ScoredTailIsNoFake(u[1..], lines, b[width..], m);
      if u[0].Char? && Token(m) <= Render(u) {
        RenderFront(u);
        SameFront(Token(m), Render(u));
      }
    }
  }

  // ----- Without fakes and clashes the detour is lossless -----

  lemma BareAppend(a: Text, b: Text)
    ensures BareText(a + b) <==> BareText(a) && BareText(b)
  {
    var t := a + b;
    if BareText(t) {
      assert forall i :: 0 <= i < |a| ==> a[i] == t[i];
      assert forall i :: 0 <= i < |b| ==> b[i] == t[|a| + i];
    }
  }

  lemma {:induction false} BareAfterReplace(t: Text, part: Text, i: nat)
    requires part != [] && BareText(t)
    ensures BareText(Replace(t, part, [Mark(i)]))
  {
    if t != [] {
      if part <= t {
        BareAfterReplace(t[|part|..], part, i);
        BareAppend([Mark(i)], Replace(t[|part|..], part, [Mark(i)]));
      } else {
        BareAfterReplace(t[1..], part, i);
        BareAppend([t[0]], Replace(t[1..], part, [Mark(i)]));
      }
    }
  }

  lemma {:induction false} BareMarked(t: Text, lines: seq<string>, lo: nat, n: nat)
    requires lo <= n <= |lines| && BareText(t)
    ensures BareText(Marked(t, lines, lo, n))
    decreases n
  {
    if n > lo {
      BareMarked(t, lines, lo, n - 1);
      if lines[n - 1] != "" {
        BareAfterReplace(Marked(t, lines, lo, n - 1), Lift(lines[n - 1]), n - 1);
      }
    }
  }

  lemma MarkedSpells(text: string, lines: seq<string>, n: nat)
    requires n <= |lines|
    ensures Spells(Marked(Lift(text), lines, 0, n), lines, text)
  {
    LiftedSpells(text, [], lines, text);
    assert Lift(text) + [] == Lift(text) && text[|text|..] == "";
    SpellsMarked(Lift(text), lines, 0, n, text);
  }

  /** Placing is what it is on symbols. */
  lemma {:induction false} PlaceOnSymbols(text: string, lines: seq<string>, n: nat)
    requires n <= |lines| && TokenFree(text) && QuietLines(lines) && NoClashFrom(lines, 0)
    ensures Place(text, lines, n) == Placed(Render(Marked(Lift(text), lines, 0, n)), Swaps(Lift(text), lines, 0, n))
  {
    if n == 0 {
      RenderLifted(text);
    } else {
      PlaceOnSymbols(text, lines, n - 1);
      MarkedSpells(text, lines, n - 1);
      TextIsFakeFree(Marked(Lift(text), lines, 0, n - 1), lines, text, n - 1);
      PlaceStep(Lift(text), lines, 0, n);
    }
  }

  /** Turning back spells out every placeholder, whatever else happened to the body, as long
      as it reads nothing like a placeholder. */
  lemma PutBackSpelled(t: Text, lines: seq<string>, u: Text, b: string)
    requires Spells(u, lines, b) && TokenFree(b)
    ensures PutBack(Render(u), Swaps(t, lines, 0, |lines|)) == Render(Expand(u, lines, Indices(t, lines, 0, |lines|)))
  {
    forall m | 0 <= m < |lines| && m in Indices(t, lines, 0, |lines|)
      ensures FakeFree(Expand(u, lines, Indices(t, lines, 0, m)), m)
    {
      SpellsExpanded(u, lines, b, Indices(t, lines, 0, m));
      TextIsFakeFree(Expand(u, lines, Indices(t, lines, 0, m)), lines, b, m);
    }
    PutBackOnSymbols(t, lines, 0, |lines|, u);
  }

  ghost function ThereAndBack(text: string, lines: seq<string>): string {
    var p := Place(text, lines, |lines|);
    PutBack(p.body, p.swaps)
  }

  lemma ComesBack(text: string, lines: seq<string>)
    requires TokenFree(text) && QuietLines(lines) && NoClashFrom(lines, 0)
    ensures ThereAndBack(text, lines) == text
  {
    var t, n := Lift(text), |lines|;
    PlaceOnSymbols(text, lines, n);
    MarkedSpells(text, lines, n);
    PutBackSpelled(t, lines, Marked(t, lines, 0, n), text);
    MarkedExpands(t, lines, 0, n, Indices(t, lines, 0, n));
    LiftedStays(text, lines, Indices(t, lines, 0, n));
    RenderLifted(text);
  }

  // ----- A clash loses a line -----

  lemma CharOrToken(u: Text, lines: seq<string>, b: string)
    requires Spells(u, lines, b) && QuietLines(lines) && u != []
    ensures b != "" && |Render(u)| >= 1
    ensures u[0].Char? ==> Render(u)[0] == b[0] && Render(u)[1..] == Render(u[1..]) && Spells(u[1..], lines, b[1..])
    ensures u[0].Mark? ==> |Render(u)| >= 2 && Render(u)[0] == '_' && Render(u)[1] == '_' && b[0] != '_'
  {
    RenderFront(u);
    if u[0].Mark? {
      assert lines[u[0].index][0] == b[0];
    }
  }

  lemma {:induction false} Follow(u: Text, lines: seq<string>, b: string, a: string, n: nat)
    requires Spells(u, lines, b) && QuietLines(lines) && a <= Render(u) && n <= |a|
    requires forall x :: 0 <= x < n && a[x] == '_' ==> x < |b| && b[x] == '_'
    ensures n <= |b| && n <= |u| && a[..n] == b[..n] && Spells(u[n..], lines, b[n..])
    ensures forall x :: 0 <= x < n ==> u[x].Char?
  {
    if n > 0 {
      CharOrToken(u, lines, b);
      SameFront(a, Render(u));
      Follow(u[1..], lines, b[1..], a[1..], n - 1);
      assert a[..n] == [a[0]] + a[1..][..n - 1] && b[..n] == [b[0]] + b[1..][..n - 1];
      assert u[1..][n - 1..] == u[n..] && b[1..][n - 1..] == b[n..];
    } else {
      assert u[0..] == u && b[0..] == b;
    }
  }

  lemma {:induction false} ScoresUnmarked(u: Text, lines: seq<string>, b: string)
    requires Spells(u, lines, b) && QuietLines(lines) && forall k :: 0 <= k < |b| ==> b[k] == '_'
    ensures MarksOf(u) == {}
  {
    if u != [] {
      CharOrToken(u, lines, b);
      MarksSplit(u);
      ScoresUnmarked(u[1..], lines, b[1..]);
    }
  }

  /** What reads like a placeholder from its start on is that of an earlier line, or whole. */
  lemma ReadsLikeToken(u: Text, lines: seq<string>, i: nat, m: nat)
    requires Spells(u, lines, Token(i)) && QuietLines(lines) && Token(m) <= Render(u)
    ensures m <= i && (m == i ==> MarksOf(u) == {})
  {
    var a, b, n := Token(m), Token(i), 25 + |Decimal(m)|;
    assert forall x :: 0 <= x < 25 ==> a[x] == Letter(x) == b[x];
    Follow(u, lines, b, a, n);
    assert forall x :: 0 <= x < n ==> a[x] == a[..n][x] == b[..n][x] == b[x];
    assert n <= |b| - 2;
    assert Decimal(m) == a[25..n] == b[25..n] == Decimal(i)[..n - 25];
    DecimalPrefix(m, i);
    if m == i {
      ScoresUnmarked(u[n..], lines, b[n..]);
      assert u == u[..n] + u[n..];
      MarksApart(u[..n], u[n..]);
    }
  }

  lemma NothingSpelled(u: Text, lines: seq<string>)
    requires Spells(u, lines, "")
    ensures u == []
  {
  }

  /** Nor does it from a later character on. */
  lemma LaterIsNoFake(u: Text, lines: seq<string>, i: nat, g: nat, m: nat)
    requires 1 <= g <= |Token(i)| && Spells(u, lines, Token(i)[g..]) && QuietLines(lines)
    ensures u != [] && u[0].Char? ==> !(Token(m) <= Render(u))
  {
    var b, a, whole := Token(i)[g..], Token(m), Render(u);
    assert a[0] == Letter(0) == '_' && a[1] == Letter(1) == '_' && a[2] == Letter(2) == 'M';
    if u != [] && u[0].Char? && u[1..] != [] {
      CharOrToken(u, lines, b);
      CharOrToken(u[1..], lines, b[1..]);
      assert whole[1] == Render(u[1..])[0];
      if u[1].Mark? {
        assert whole[2] == Render(u[1..])[1];
      } else if g < |Token(i)| - 2 {
        ScoresApart(i, g);
      } else {
        assert Spells(u[1..][1..], lines, b[1..][1..]) && b[1..][1..] == "";
        NothingSpelled(u[1..][1..], lines);
        assert |whole| == 2;
      }
    }
  }

  /** Nor do the ends of one placeholder and what is left of the broken one together. */
  lemma BehindIsNoFake(u: Text, lines: seq<string>, i: nat, g: nat, m: nat)
    requires 3 <= g <= |Token(i)| && Spells(u, lines, Token(i)[g..]) && QuietLines(lines)
    ensures !(Token(m)[1..] <= Render(u)) && !(Token(m)[2..] <= Render(u))
  {
    var b, a, c, whole := Token(i)[g..], Token(m)[1..], Token(m)[2..], Render(u);
    assert a[0] == Letter(1) == '_' && a[1] == c[0] == Letter(2) == 'M' && c[1] == Letter(3) == 'A';
    if u != [] {
      CharOrToken(u, lines, b);
      if u[0].Char? && u[1..] != [] {
        CharOrToken(u[1..], lines, b[1..]);
        assert whole[1] == Render(u[1..])[0];
        OneM(i, g);
      }
    }
  }

  /** Behind its start a placeholder has an M only before an underscore. */
  lemma OneM(i: nat, g: nat)
    requires 3 <= g && g + 1 < |Token(i)|
    ensures Token(i)[g] == 'M' ==> Token(i)[g + 1] == '_'
    ensures Token(i)[g + 1] == 'M' ==> Token(i)[g] != '_'
  {
    var t := Token(i);
    assert g < 25 ==> t[g] == Letter(g);
    assert g + 1 < 25 ==> t[g + 1] == Letter(g + 1);
  }

  /** How far the first symbol of `u` reaches. */
  function Reach(u: Text, lines: seq<string>): nat
    requires u != [] && (u[0].Mark? ==> u[0].index < |lines|)
  {
    if u[0].Char? then 1 else |lines[u[0].index]|
  }

  lemma SpellsOn(u: Text, lines: seq<string>, s: string, g: nat)
    requires g <= |s| && Spells(u, lines, s[g..]) && u != []
    ensures 1 <= Reach(u, lines) <= |s| - g && Spells(u[1..], lines, s[g + Reach(u, lines)..])
  {
    assert s[g..][Reach(u, lines)..] == s[g + Reach(u, lines)..];
  }

  lemma MarksBehindTwo(u: Text, lines: seq<string>, i: nat, g: nat)
    requires 1 <= g <= |Token(i)| && Spells(u, lines, Token(i)[g..]) && QuietLines(lines) && u != [] && u[0].Mark?
    ensures g >= 2
  {
    CharOrToken(u, lines, Token(i)[g..]);
    assert Token(i)[1] == Letter(1) == '_' && Token(i)[g..][0] == Token(i)[g];
  }

  lemma {:induction false} RestIsFakeFree(u: Text, lines: seq<string>, i: nat, g: nat, m: nat)
    requires 1 <= g <= |Token(i)| && Spells(u, lines, Token(i)[g..]) && QuietLines(lines)
    ensures FakeFree(u, m)
  {
    if u != [] {
      SpellsOn(u, lines, Token(i), g);
      RestIsFakeFree(u[1..], lines, i, g + Reach(u, lines), m);
      if u[0].Char? {
        LaterIsNoFake(u, lines, i, g, m);
      } else {
        MarksBehindTwo(u, lines, i, g);
        BehindIsNoFake(u[1..], lines, i, g + Reach(u, lines), m);
      }
    }
  }

  /** Nothing in a placeholder broken by later lines reads like one that is turned back later. */
  lemma BrokenIsFakeFree(u: Text, lines: seq<string>, i: nat, m: nat)
    requires Spells(u, lines, Token(i)) && QuietLines(lines) && m >= i && (m == i ==> MarksOf(u) != {})
    ensures FakeFree(u, m)
  {
    CharOrToken(u, lines, Token(i));
    assert u[0].Char? by {
      assert Token(i)[0] == Letter(0) == '_';
    }
    RestIsFakeFree(u[1..], lines, i, 1, m);
    if Token(m) <= Render(u) {
      ReadsLikeToken(u, lines, i, m);
    }
  }

  /** The lines as they come: none empty, no two the same, the longest first. */
  predicate LongestFirst(lines: seq<string>) {
    && (forall i :: 0 <= i < |lines| ==> lines[i] != "")
    && (forall i, j :: 0 <= i < j < |lines| ==> |lines[j]| <= |lines[i]| && lines[i] != lines[j])
  }

  lemma {:induction false} LongestFirstNotInside(lines: seq<string>, i: nat, n: nat)
    requires n <= i < |lines| && LongestFirst(lines)
    ensures Place(lines[i], lines, n) == Placed(lines[i], [])
  {
    if n > 0 {
      LongestFirstNotInside(lines, i, n - 1);
      assert |lines[i]| <= |lines[n - 1]| && lines[n - 1] != lines[i];
    }
  }

  lemma SingleHasNoToken(text: string, i: nat)
    requires Single(text)
    ensures !Contains(text, Token(i))
  {
    var t := Token(i);
    assert t[0] == Letter(0) == '_' && t[1] == Letter(1) == '_';
    ContainsOccurs(text, t);
    forall r: nat ensures !OccursAt(t, text, r) {
      assert r + |t| <= |text| ==> text[r..r + |t|][0] == text[r] && text[r..r + |t|][1] == text[r + 1];
    }
  }

  /** Broken `Token(i)`: what the body is when its line was all of it. */
  ghost function Broken(lines: seq<string>, i: nat, n: nat): Text
    requires i < n <= |lines|
  {
    Marked(Lift(Token(i)), lines, i + 1, n)
  }

  lemma BrokenReads(lines: seq<string>, i: nat, n: nat)
    requires i < n <= |lines|
    ensures Spells(Broken(lines, i, n), lines, Token(i))
    ensures MarksOf(Broken(lines, i, n)) == Indices(Lift(Token(i)), lines, i + 1, n)
  {
    LiftedSpells(Token(i), [], lines, Token(i));
    assert Lift(Token(i)) + [] == Lift(Token(i)) && Token(i)[|Token(i)|..] == "";
    SpellsMarked(Lift(Token(i)), lines, i + 1, n, Token(i));
    MarkedMarks(Lift(Token(i)), lines, i + 1, n);
  }

  lemma PlaceBehind(first: seq<Swap>, p: Placed, index: nat, line: string)
    ensures var q := PlaceOne(p, index, line);
            PlaceOne(Placed(p.body, first + p.swaps), index, line) == Placed(q.body, first + q.swaps)
  {
    Reassociate(first, p.swaps, [Swap(FreshToken(p.body, Token(index)), line)]);
  }

  lemma PlaceFirst(lines: seq<string>, i: nat)
    requires i < |lines| && LongestFirst(lines) && QuietLines(lines)
    ensures Place(lines[i], lines, i + 1) == Placed(Token(i), [Swap(Token(i), lines[i])])
  {
    LongestFirstNotInside(lines, i, i);
    SingleHasNoToken(lines[i], i);
    assert Replace(lines[i], lines[i], Token(i)) == Token(i) by {
      assert lines[i][|lines[i]|..] == "" && Token(i) + "" == Token(i);
    }
    assert [] + [Swap(Token(i), lines[i])] == [Swap(Token(i), lines[i])];
  }

  ghost function BrokenPlaced(lines: seq<string>, i: nat, n: nat): Placed
    requires i < n <= |lines|
  {
    Placed(Render(Broken(lines, i, n)), [Swap(Token(i), lines[i])] + Swaps(Lift(Token(i)), lines, i + 1, n))
  }

  lemma BrokenFirst(lines: seq<string>, i: nat)
    requires i < |lines|
    ensures BrokenPlaced(lines, i, i + 1) == Placed(Token(i), [Swap(Token(i), lines[i])])
  {
    RenderLifted(Token(i));
    assert [Swap(Token(i), lines[i])] + [] == [Swap(Token(i), lines[i])];
  }

  lemma BrokenStep(lines: seq<string>, i: nat, n: nat)
    requires i + 1 < n <= |lines| && QuietLines(lines) && NoClashFrom(lines, i + 1)
    ensures PlaceOne(BrokenPlaced(lines, i, n - 1), n - 1, lines[n - 1]) == BrokenPlaced(lines, i, n)
  {
    var t, before := Lift(Token(i)), Broken(lines, i, n - 1);
    BrokenReads(lines, i, n - 1);
    BrokenIsFakeFree(before, lines, i, n - 1);
    PlaceStep(t, lines, i + 1, n);
    PlaceBehind([Swap(Token(i), lines[i])], Placed(Render(before), Swaps(t, lines, i + 1, n - 1)), n - 1, lines[n - 1]);
  }

  lemma {:induction false} PlaceBroken(lines: seq<string>, i: nat, n: nat)
    requires i < n <= |lines| && LongestFirst(lines) && QuietLines(lines) && NoClashFrom(lines, i + 1)
    ensures Place(lines[i], lines, n) == BrokenPlaced(lines, i, n)
    decreases n
  {
    if n == i + 1 {
      PlaceFirst(lines, i);
      BrokenFirst(lines, i);
    } else {
      PlaceBroken(lines, i, n - 1);
      BrokenStep(lines, i, n);
    }
  }

  lemma {:induction false} PutBackBehind(body: string, a: seq<Swap>, b: seq<Swap>)
    requires forall k :: 0 <= k < |a| ==> a[k].token != ""
    requires forall k :: 0 <= k < |b| ==> b[k].token != ""
    ensures PutBack(body, a + b) == PutBack(PutBack(body, a), b)
    decreases |b|
  {
    if b == [] {
      assert a + b == a;
    } else {
      var rest, last := b[..|b| - 1], b[|b| - 1];
      assert a + b == (a + rest) + [last] && b == rest + [last];
      PutBackLast(body, a + rest, last);
      PutBackLast(PutBack(body, a), rest, last);
      PutBackBehind(body, a, rest);
    }
  }

  lemma {:induction false} NothingFound(t: Text, lines: seq<string>, lo: nat, n: nat, j: nat)
    requires lo <= j < n <= |lines| && Indices(t, lines, lo, n) == {}
    ensures Marked(t, lines, lo, n - 1) == t && !Found(t, lines[j])
    decreases n
  {
    if n - 1 > lo {
      NothingFound(t, lines, lo, n - 1, lo);
    }
    if j < n - 1 {
      NothingFound(t, lines, lo, n - 1, j);
    }
  }

  lemma PutBackBroken(lines: seq<string>, i: nat)
    requires i < |lines| && QuietLines(lines)
    ensures PutBack(Render(Broken(lines, i, |lines|)), Swaps(Lift(Token(i)), lines, i + 1, |lines|)) == Token(i)
  {
    var t, u, n, lo := Lift(Token(i)), Broken(lines, i, |lines|), |lines|, i + 1;
    BrokenReads(lines, i, n);
    forall m | lo <= m < n && m in Indices(t, lines, lo, n)
      ensures FakeFree(Expand(u, lines, Indices(t, lines, lo, m)), m)
    {
      SpellsExpanded(u, lines, Token(i), Indices(t, lines, lo, m));
      BrokenIsFakeFree(Expand(u, lines, Indices(t, lines, lo, m)), lines, i, m);
    }
    PutBackOnSymbols(t, lines, lo, n, u);
    MarkedExpands(t, lines, lo, n, Indices(t, lines, lo, n));
    LiftedStays(Token(i), lines, Indices(t, lines, lo, n));
    RenderLifted(Token(i));
  }

  /** The broken placeholder is not found when its turn to be turned back comes. */
  lemma NotTurnedBack(lines: seq<string>, i: nat, j: nat)
    requires i < j < |lines| && LongestFirst(lines) && QuietLines(lines) && Contains(Token(i), lines[j])
    ensures var body := Render(Broken(lines, i, |lines|));
            PutBack(body, [Swap(Token(i), lines[i])]) == body
  {
    var u, n := Broken(lines, i, |lines|), |lines|;
    BrokenReads(lines, i, n);
    LiftedContains(Token(i), lines[j]);
    if Indices(Lift(Token(i)), lines, i + 1, n) == {} {
      NothingFound(Lift(Token(i)), lines, i + 1, n, j);
    }
    BrokenIsFakeFree(u, lines, i, i);
    ReplaceToken(u, i, lines[i]);
    NotInside(Render(u), Token(i), lines[i]);
    PutBackLast(Render(u), [], Swap(Token(i), lines[i]));
    assert [] + [Swap(Token(i), lines[i])] == [Swap(Token(i), lines[i])];
  }

  /** A line whose placeholder has a later line in it, with no clash behind it, is lost: where
      it was all of the text, the placeholder is left. */
  lemma LineIsLost(lines: seq<string>, i: nat, j: nat)
    requires i < j < |lines| && LongestFirst(lines) && QuietLines(lines)
    requires Contains(Token(i), lines[j]) && NoClashFrom(lines, i + 1)
    ensures ThereAndBack(lines[i], lines) == Token(i) != lines[i]
  {
    PlaceBroken(lines, i, |lines|);
    NotTurnedBack(lines, i, j);
    PutBackBehind(Render(Broken(lines, i, |lines|)), [Swap(Token(i), lines[i])],
                  Swaps(Lift(Token(i)), lines, i + 1, |lines|));
    PutBackBroken(lines, i);
    assert Token(i)[0] == Letter(0) == '_';
  }

  lemma {:induction false} LastClash(lines: seq<string>, lo: nat) returns (i: nat, j: nat)
    requires lo <= |lines| && !NoClashFrom(lines, lo) && LongestFirst(lines)
    ensures lo <= i < j < |lines| && Contains(Token(i), lines[j]) && NoClashFrom(lines, i + 1)
    decreases |lines| - lo
  {
    if NoClashFrom(lines, lo + 1) {
      i, j :| lo <= i < j < |lines| && lines[j] != "" && Contains(Token(i), lines[j]);
    } else {
      i, j := LastClash(lines, lo + 1);
    }
  }

  /** The way through the placeholders and back is lossless for every text without
      "MANJU_ALLOWED_VERBATIM_" and a digit exactly when no line is part of an earlier line's
      placeholder. */
  lemma LosslessExact(lines: seq<string>)
    requires LongestFirst(lines) && QuietLines(lines)
    ensures (forall text :: TokenFree(text) ==> ThereAndBack(text, lines) == text) <==> NoClashFrom(lines, 0)
  {
    if NoClashFrom(lines, 0) {
      forall text | TokenFree(text) ensures ThereAndBack(text, lines) == text {
        ComesBack(text, lines);
      }
    } else {
      var i, j := LastClash(lines, 0);
      LineIsLost(lines, i, j);
    }
  }
}
