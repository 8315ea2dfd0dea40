/** Placeholders in a prompt (ensure_source_excerpt_in_prompt in app/compiler.py).

    A placeholder is ordinary text: a fixed prefix, the index of its line, two underscores.
    Next to texts of characters there are here texts of symbols, in which a placeholder is
    one symbol of its own.  `Render` writes such a text in characters; the lemmas say when
    str.replace on characters does what it would do on symbols. */
module PlaceholderTexts {
  import opened OverlapSpans

  // ----- str.replace and `in` -----

  /** str.replace: occurrences from the left, not overlapping. */
  function Replace<T(==)>(t: seq<T>, part: seq<T>, put: seq<T>): seq<T>
    requires part != []
  {
    if t == [] then []
    else if part <= t then put + Replace(t[|part|..], part, put)
    else [t[0]] + Replace(t[1..], part, put)
  }

  predicate Contains<T(==)>(t: seq<T>, part: seq<T>): (b: bool)
    ensures b ==> |part| <= |t|
  {
    part <= t || (t != [] && Contains(t[1..], part))
  }

  lemma {:induction false} ContainsAt<T>(t: seq<T>, part: seq<T>, r: nat)
    requires r <= |t| && part <= t[r..]
    ensures Contains(t, part)
  {
    if r > 0 {
      assert t[1..][r - 1..] == t[r..];
      ContainsAt(t[1..], part, r - 1);
    } else {
      assert t[0..] == t;
    }
  }

  lemma {:induction false} ContainsOccurs<T>(t: seq<T>, part: seq<T>)
    ensures Contains(t, part) <==> Occurs(part, t)
  {
    if Contains(t, part) {
      if part <= t {
        assert OccursAt(part, t, 0);
      } else {
        ContainsOccurs(t[1..], part);
        var i: nat :| OccursAt(part, t[1..], i);
        assert t[i + 1..i + 1 + |part|] == t[1..][i..i + |part|];
        assert OccursAt(part, t, i + 1);
      }
    }
    if i: nat :| OccursAt(part, t, i) {
      assert t[i..][..|part|] == t[i..i + |part|];
      ContainsAt(t, part, i);
    }
  }

  lemma {:induction false} NotInside<T>(t: seq<T>, part: seq<T>, put: seq<T>)
    requires part != [] && !Contains(t, part)
    ensures Replace(t, part, put) == t
  {
    if t != [] {
      NotInside(t[1..], part, put);
    }
  }

  /** No occurrence of `part` in `a + b` starts in `a`. */
  ghost predicate NoneStarts<T>(a: seq<T>, b: seq<T>, part: seq<T>) {
    forall r :: 0 <= r < |a| ==> !(part <= a[r..] + b)
  }

  lemma {:induction false} SkipStretch<T>(a: seq<T>, b: seq<T>, part: seq<T>, put: seq<T>)
    requires part != [] && NoneStarts(a, b, part)
    ensures Replace(a + b, part, put) == a + Replace(b, part, put)
    ensures Contains(a + b, part) <==> Contains(b, part)
  {
    if a == [] {
      assert a + b == b;
    } else {
      forall r | 0 <= r < |a| - 1 ensures !(part <= a[1..][r..] + b) {
        assert a[1..][r..] == a[r + 1..];
      }
      SkipStretch(a[1..], b, part, put);
      assert a[0..] == a;
      assert (a + b)[1..] == a[1..] + b && (a + b)[0] == a[0];
    }
  }

  // ----- Texts of symbols -----

  datatype Symbol = Char(c: char) | Mark(index: nat)
  type Text = seq<Symbol>

  function Lift(s: string): (t: Text)
    ensures |t| == |s| && forall i :: 0 <= i < |s| ==> t[i] == Char(s[i])
  {
    seq(|s|, i requires 0 <= i < |s| => Char(s[i]))
  }

  function MarksOf(t: Text): set<nat> {
    set i | 0 <= i < |t| && t[i].Mark? :: t[i].index
  }

  /** Each placeholder in `done` spelled out as its line. */
  function Expand(t: Text, lines: seq<string>, done: set<nat>): Text {
    if t == [] then [] else Spelled(t[0], lines, done) + Expand(t[1..], lines, done)
  }

  function Spelled(s: Symbol, lines: seq<string>, done: set<nat>): Text {
    if s.Mark? && s.index in done && s.index < |lines| then Lift(lines[s.index]) else [s]
  }

  lemma Reassociate<T>(a: seq<T>, b: seq<T>, c: seq<T>)
    ensures (a + b) + c == a + (b + c)
  {
  }

  lemma {:induction false} ExpandAppend(a: Text, b: Text, lines: seq<string>, done: set<nat>)
    ensures Expand(a + b, lines, done) == Expand(a, lines, done) + Expand(b, lines, done)
  {
    if a == [] {
      assert a + b == b;
    } else {
      assert (a + b)[1..] == a[1..] + b && (a + b)[0] == a[0];
      ExpandAppend(a[1..], b, lines, done);
      Reassociate(Spelled(a[0], lines, done), Expand(a[1..], lines, done), Expand(b, lines, done));
    }
  }

  lemma {:induction false} LiftedStays(s: string, lines: seq<string>, done: set<nat>)
    ensures Expand(Lift(s), lines, done) == Lift(s)
  {
    if s != "" {
      var t := Lift(s);
      assert t[1..] == Lift(s[1..]);
      LiftedStays(s[1..], lines, done);
      assert Spelled(t[0], lines, done) == [t[0]] && t == [t[0]] + t[1..];
    }
  }

  lemma MarksApart(a: Text, b: Text)
    ensures MarksOf(a + b) == MarksOf(a) + MarksOf(b)
  {
    var t := a + b;
    forall m | m in MarksOf(a) + MarksOf(b) ensures m in MarksOf(t) {
      if m in MarksOf(a) {
        var i :| 0 <= i < |a| && a[i].Mark? && a[i].index == m;
        assert t[i] == a[i];
      } else {
        var i :| 0 <= i < |b| && b[i].Mark? && b[i].index == m;
        assert t[|a| + i] == b[i];
      }
    }
  }

  lemma MarksSplit(t: Text)
    requires t != []
    ensures MarksOf(t) == MarksOf([t[0]]) + MarksOf(t[1..])
    ensures MarksOf([t[0]]) == if t[0].Mark? then {t[0].index} else {}
  {
    MarksApart([t[0]], t[1..]);
    assert t == [t[0]] + t[1..];
    if t[0].Mark? {
      assert [t[0]][0].Mark?;
    }
  }

  lemma SameFront<T>(a: seq<T>, b: seq<T>)
    requires a != [] && b != []
    ensures a <= b <==> a[0] == b[0] && a[1..] <= b[1..]
  {
    if a[0] == b[0] && a[1..] <= b[1..] {
      assert a == [a[0]] + a[1..] && b == [b[0]] + b[1..];
    }
  }

  lemma MarkSkipsLine(line: string, rest: Text, i: nat)
    ensures NoneStarts(Lift(line), rest, [Mark(i)])
  {
    forall r | 0 <= r < |line| ensures !([Mark(i)] <= Lift(line)[r..] + rest) {
      assert (Lift(line)[r..] + rest)[0] == Char(line[r]);
    }
  }

  /** Turning a placeholder back with str.replace spells out one more placeholder. */
  lemma {:induction false} RestoreOne(t: Text, lines: seq<string>, done: set<nat>, i: nat)
    requires i < |lines| && i !in done
    ensures Replace(Expand(t, lines, done), [Mark(i)], Lift(lines[i])) == Expand(t, lines, done + {i})
  {
    if t != [] {
      RestoreOne(t[1..], lines, done, i);
      var rest := Expand(t[1..], lines, done);
      if t[0].Mark? && t[0].index in done && t[0].index < |lines| {
        MarkSkipsLine(lines[t[0].index], rest, i);
        SkipStretch(Lift(lines[t[0].index]), rest, [Mark(i)], Lift(lines[i]));
      } else {
        assert ([t[0]] + rest)[1..] == rest && ([t[0]] + rest)[0] == t[0];
        SameFront([Mark(i)], [t[0]] + rest);
        assert [Mark(i)][1..] == [];
      }
    }
  }

  /** Protecting a line changes nothing once its placeholder is spelled out. */
  lemma {:induction false} ProtectOne(t: Text, lines: seq<string>, i: nat, done: set<nat>)
    requires i < |lines| && lines[i] != "" && i in done
    ensures Expand(Replace(t, Lift(lines[i]), [Mark(i)]), lines, done) == Expand(t, lines, done)
  {
    if t != [] {
      var line := Lift(lines[i]);
      if line <= t {
        ProtectOne(t[|line|..], lines, i, done);
        assert t == line + t[|line|..];
        ProtectHere(t[|line|..], lines, i, done);
      } else {
        ProtectOne(t[1..], lines, i, done);
        assert ([t[0]] + Replace(t[1..], line, [Mark(i)]))[1..] == Replace(t[1..], line, [Mark(i)]);
      }
    }
  }

  lemma ProtectHere(rest: Text, lines: seq<string>, i: nat, done: set<nat>)
    requires i < |lines| && lines[i] != "" && i in done
    ensures Expand(Lift(lines[i]) + rest, lines, done) == Lift(lines[i]) + Expand(rest, lines, done)
    ensures forall after :: Expand([Mark(i)] + after, lines, done) == Lift(lines[i]) + Expand(after, lines, done)
  {
    ExpandAppend(Lift(lines[i]), rest, lines, done);
    LiftedStays(lines[i], lines, done);
    forall after: Text ensures Expand([Mark(i)] + after, lines, done) == Lift(lines[i]) + Expand(after, lines, done) {
      assert ([Mark(i)] + after)[1..] == after;
    }
  }

  lemma {:induction false} MarksAfterReplace(t: Text, line: string, i: nat)
    requires line != ""
    ensures MarksOf(Replace(t, Lift(line), [Mark(i)]))
              == MarksOf(t) + if Contains(t, Lift(line)) then {i} else {}
  {
    if t != [] {
      if Lift(line) <= t {
        var rest := t[|line|..];
        MarksAfterReplace(rest, line, i);
        MarksApart([Mark(i)], Replace(rest, Lift(line), [Mark(i)]));
        MarksApart(Lift(line), rest);
        assert t == Lift(line) + rest;
        assert [Mark(i)][0].Mark?;
        assert MarksOf([Mark(i)]) == {i} && MarksOf(Lift(line)) == {};
      } else {
        MarksAfterReplace(t[1..], line, i);
        MarksApart([t[0]], Replace(t[1..], Lift(line), [Mark(i)]));
        MarksSplit(t);
      }
    }
  }

  /** A placeholder that is there is spelled out as its line. */
  lemma {:induction false} MarkIsSpelled(t: Text, lines: seq<string>, done: set<nat>, i: nat)
    requires i in MarksOf(t) && i in done && i < |lines|
    ensures Contains(Expand(t, lines, done), Lift(lines[i]))
  {
    MarksSplit(t);
    var front, rest := Spelled(t[0], lines, done), Expand(t[1..], lines, done);
    if t[0] == Mark(i) {
      assert Lift(lines[i]) <= front + rest;
    } else {
      MarkIsSpelled(t[1..], lines, done, i);
      ContainsBehind(front, rest, Lift(lines[i]));
    }
  }

  lemma {:induction false} ContainsBehind<T>(a: seq<T>, b: seq<T>, part: seq<T>)
    requires Contains(b, part)
    ensures Contains(a + b, part)
  {
    if a == [] {
      assert a + b == b;
    } else {
      ContainsBehind(a[1..], b, part);
      assert (a + b)[1..] == a[1..] + b;
    }
  }

  lemma {:induction false} LiftedContains(t: string, part: string)
    ensures Contains(Lift(t), Lift(part)) <==> Contains(t, part)
  {
    assert Lift(part) <= Lift(t) <==> part <= t by {
      if Lift(part) <= Lift(t) {
        assert forall k :: 0 <= k < |part| ==> Lift(t)[k] == Lift(part)[k] && Lift(t)[k] == Char(t[k]);
      }
    }
    if t != "" {
      LiftedContains(t[1..], part);
      assert Lift(t)[1..] == Lift(t[1..]);
    }
  }

  // ----- Placeholders in characters -----

  /** The characters of "__MANJU_ALLOWED_VERBATIM_". */
  function Letter(k: nat): (c: char)
    requires k < 25
    ensures c == '_' <==> k in {0, 1, 7, 15, 24}
    ensures c == 'M' <==> k in {2, 23}
    ensures k in {3, 8} ==> c == 'A'
    ensures c as int < 128
  {
    if k < 2 then '_'
    else if k < 7 then "MANJU"[k - 2]
    else if k == 7 then '_'
    else if k < 15 then "ALLOWED"[k - 8]
    else if k == 15 then '_'
    else if k < 24 then "VERBATIM"[k - 16]
    else '_'
  }

  function Decimal(n: nat): (s: string)
    ensures s != "" && forall k :: 0 <= k < |s| ==> '0' <= s[k] <= '9'
  {
    if n < 10 then [Digit(n)] else Decimal(n / 10) + [Digit(n % 10)]
  }

  function Digit(d: nat): (c: char)
    requires d < 10
    ensures '0' <= c <= '9' && c as int == '0' as int + d
  {
    ('0' as int + d) as char
  }

  function TokenText(index: nat): string {
    "__MANJU_ALLOWED_VERBATIM_" + Decimal(index) + "__"
  }

  /** The placeholder of line `index`, character by character. */
  ghost predicate IsToken(t: string, index: nat) {
    && |t| == 27 + |Decimal(index)|
    && (forall k :: 0 <= k < 25 ==> t[k] == Letter(k))
    && t[25..|t| - 2] == Decimal(index) && (forall k :: 25 <= k < |t| - 2 ==> '0' <= t[k] <= '9')
    && t[|t| - 2] == '_' && t[|t| - 1] == '_'
  }

  lemma TokenTextIsToken(index: nat)
    ensures IsToken(TokenText(index), index)
  {
    var p, t, d := "__MANJU_ALLOWED_VERBATIM_", TokenText(index), Decimal(index);
    forall k | 0 <= k < 25 ensures p[k] == Letter(k) {
    }
    assert t[..25] == p;
    assert t[25..|t| - 2] == d;
    assert forall k :: 25 <= k < |t| - 2 ==> t[k] == d[k - 25];
  }

  /** It is kept abstract: the proofs see its characters, not how it is put together. */
  ghost function Token(index: nat): (t: string)
    ensures IsToken(t, index)
  {
    TokenTextIsToken(index);
    var t :| IsToken(t, index);
    t
  }

  lemma TokenIs(index: nat)
    ensures Token(index) == TokenText(index)
  {
    var a, b := Token(index), TokenText(index);
    TokenTextIsToken(index);
    assert forall k :: 25 <= k < |a| - 2 ==> a[k] == a[25..|a| - 2][k - 25] == b[25..|b| - 2][k - 25] == b[k];
    assert forall k :: 0 <= k < |a| ==> a[k] == b[k];
    assert a == b;
  }

  lemma {:induction false} DecimalInjective(m: nat, i: nat)
    requires Decimal(m) == Decimal(i)
    ensures m == i
  {
    if m >= 10 && i >= 10 {
      var d, e := Decimal(m), Decimal(i);
      assert d[..|d| - 1] == Decimal(m / 10) && e[..|e| - 1] == Decimal(i / 10);
      assert d[|d| - 1] == Digit(m % 10) && e[|e| - 1] == Digit(i % 10);
      DecimalInjective(m / 10, i / 10);
    } else {
      assert |Decimal(m)| == 1 <==> m < 10;
      assert |Decimal(i)| == 1 <==> i < 10;
      assert Decimal(m)[0] == Decimal(i)[0];
    }
  }

  lemma {:induction false} DecimalPrefix(m: nat, i: nat)
    requires Decimal(m) <= Decimal(i)
    ensures m <= i
  {
    if |Decimal(m)| == |Decimal(i)| {
      DecimalInjective(m, i);
    } else {
      assert Decimal(i)[..|Decimal(i)| - 1] == Decimal(i / 10);
      DecimalPrefix(m, i / 10);
    }
  }

  /** No placeholder is the beginning of another with something behind it. */
  lemma TokensDiffer(m: nat, j: nat, rest: string)
    requires Token(m) <= Token(j) + rest
    ensures m == j
  {
    var a, b, whole := Token(m), Token(j), Token(j) + rest;
    assert forall k :: 0 <= k < |a| ==> a[k] == whole[k];
    assert forall k :: 0 <= k < |b| ==> b[k] == whole[k];
    assert !(|a| < |b|) by {
      assert a[|a| - 2] == '_';
    }
    assert !(|b| < |a|) by {
      assert b[|b| - 2] == '_';
    }
    assert a == b;
    DecimalInjective(m, j);
  }

  /** Two underscores stand together only at the ends of a placeholder. */
  lemma ScoresApart(j: nat, r: nat)
    requires 1 <= r < |Token(j)| - 2
    ensures !(Token(j)[r] == '_' && Token(j)[r + 1] == '_')
  {
    var t := Token(j);
    if r < 24 {
      assert t[r] == Letter(r) && t[r + 1] == Letter(r + 1);
    }
  }

  /** Without an underscore. */
  predicate Bare(s: string) {
    '_' !in s
  }

  /** No two underscores together. */
  predicate Single(s: string) {
    forall k :: 0 < k < |s| ==> !(s[k - 1] == '_' && s[k] == '_')
  }

  /** No underscore at either end, no two together, and nothing that reads like a placeholder. */
  predicate Quiet(s: string) {
    Single(s) && TokenFree(s) && (s != "" ==> s[0] != '_' && s[|s| - 1] != '_')
  }

  lemma BareIsQuiet(s: string)
    requires Bare(s)
    ensures Quiet(s)
  {
    BareIsTokenFree(s);
  }

  predicate EndOf(s: string, whole: string) {
    |s| <= |whole| && forall k :: 0 <= k < |s| ==> s[k] == whole[|whole| - |s| + k]
  }

  ghost function Render(t: Text): string {
    if t == [] then "" else RenderOne(t[0]) + Render(t[1..])
  }

  ghost function RenderOne(s: Symbol): string {
    match s
    case Char(c) => [c]
    case Mark(i) => Token(i)
  }

  lemma {:induction false} RenderAppend(a: Text, b: Text)
    ensures Render(a + b) == Render(a) + Render(b)
  {
    if a == [] {
      assert a + b == b;
    } else {
      assert (a + b)[1..] == a[1..] + b && (a + b)[0] == a[0];
      RenderAppend(a[1..], b);
      Reassociate(RenderOne(a[0]), Render(a[1..]), Render(b));
    }
  }

  /** How a rendered text begins. */
  lemma RenderFront(t: Text)
    requires t != []
    ensures t[0].Mark? ==> |Render(t)| >= 2 && Render(t)[0] == '_' && Render(t)[1] == '_'
    ensures t[0].Char? ==> Render(t) == [t[0].c] + Render(t[1..]) && Render(t)[1..] == Render(t[1..])
  {
    if t[0].Mark? {
      assert Token(t[0].index)[0] == Letter(0) && Token(t[0].index)[1] == Letter(1);
    }
  }

  lemma {:induction false} RenderLifted(s: string)
    ensures Render(Lift(s)) == s
  {
    if s != "" {
      RenderLifted(s[1..]);
      assert Lift(s)[1..] == Lift(s[1..]);
    }
  }

  // ----- Lines in rendered texts -----

  lemma LineSkipsToken(i: nat, rest: string, line: string)
    requires line != "" && Quiet(line) && !Contains(Token(i), line)
    ensures NoneStarts(Token(i), rest, line)
  {
    var token := Token(i);
    forall r | 0 <= r < |token| ensures !(line <= token[r..] + rest) {
      var whole, k := token[r..] + rest, |token| - 1 - r;
      assert whole[k] == '_' && (k > 0 ==> whole[k - 1] == '_');
      if line <= whole && r + |line| <= |token| {
        assert line <= token[r..];
        ContainsAt(token, line, r);
      }
    }
  }

  lemma {:induction false} LineAtFront(t: Text, line: string)
    requires Single(line) && (line != "" ==> line[|line| - 1] != '_')
    ensures line <= Render(t) <==> Lift(line) <= t
  {
    if line != "" && t != [] {
      RenderFront(t);
      SameFront(line, Render(t));
      SameFront(Lift(line), t);
      if t[0].Char? {
        LineAtFront(t[1..], line[1..]);
        assert Lift(line)[1..] == Lift(line[1..]);
      }
    }
  }

  /** Replacing a line by its placeholder in characters is replacing it in symbols, unless the
      line is part of a placeholder. */
  lemma {:induction false} ReplaceLine(t: Text, line: string, i: nat)
    requires line != "" && Quiet(line) && forall j :: j in MarksOf(t) ==> !Contains(Token(j), line)
    ensures Replace(Render(t), line, Token(i)) == Render(Replace(t, Lift(line), [Mark(i)]))
    ensures Contains(Render(t), line) <==> Contains(t, Lift(line))
  {
    if t != [] {
      MarksSplit(t);
      LineAtFront(t, line);
      if t[0].Mark? {
        ReplaceLine(t[1..], line, i);
        LineSkipsToken(t[0].index, Render(t[1..]), line);
        SkipStretch(Token(t[0].index), Render(t[1..]), line, Token(i));
        assert Lift(line)[0] != t[0];
        var after := Replace(t[1..], Lift(line), [Mark(i)]);
        assert ([t[0]] + after)[1..] == after;
      } else if Lift(line) <= t {
        var rest := t[|line|..];
        assert t == Lift(line) + rest;
        MarksApart(Lift(line), rest);
        ReplaceLine(rest, line, i);
        RenderAppend(Lift(line), rest);
        RenderLifted(line);
        var after := Replace(rest, Lift(line), [Mark(i)]);
        assert ([Mark(i)] + after)[1..] == after;
      } else {
        ReplaceLine(t[1..], line, i);
        assert Render(t)[1..] == Render(t[1..]);
        var after := Replace(t[1..], Lift(line), [Mark(i)]);
        assert ([t[0]] + after)[1..] == after;
      }
    }
  }

  // ----- Placeholders in rendered texts -----

  /** Nothing but the placeholder itself reads like placeholder `m` in the rendered text. */
  ghost predicate FakeFree(t: Text, m: nat) {
    t == [] ||
    (&& FakeFree(t[1..], m)
     && (t[0].Char? ==> !(Token(m) <= Render(t)))
     && (t[0].Mark? ==> !(Token(m)[1..] <= Render(t[1..])) && !(Token(m)[2..] <= Render(t[1..]))))
  }

  lemma TokenSkipsToken(j: nat, rest: string, m: nat)
    requires j != m && !(Token(m)[1..] <= rest) && !(Token(m)[2..] <= rest)
    ensures NoneStarts(Token(j), rest, Token(m))
  {
    var t, token := Token(j), Token(m);
    assert token[0] == Letter(0) == '_' && token[1] == Letter(1) == '_';
    forall r | 0 <= r < |t| ensures !(token <= t[r..] + rest) {
      var whole := t[r..] + rest;
      assert whole[0] == t[r];
      if r == 0 {
        assert t[0..] == t;
        if token <= whole {
          TokensDiffer(m, j, rest);
        }
      } else if r < |t| - 2 {
        ScoresApart(j, r);
        assert whole[1] == t[r + 1];
      } else {
        assert r == |t| - 2 ==> whole[2..] == rest;
        assert r == |t| - 1 ==> whole[1..] == rest;
      }
    }
  }

  /** Where no text reads like placeholder `m`, str.replace finds just the placeholder. */
  lemma {:induction false} ReplaceToken(t: Text, m: nat, put: string)
    requires FakeFree(t, m)
    ensures Replace(Render(t), Token(m), put) == Render(Replace(t, [Mark(m)], Lift(put)))
    ensures Contains(Render(t), Token(m)) <==> m in MarksOf(t)
  {
    if t != [] {
      MarksSplit(t);
      ReplaceToken(t[1..], m, put);
      var rest, after := Render(t[1..]), Replace(t[1..], [Mark(m)], Lift(put));
      SameFront([Mark(m)], t);
      assert [Mark(m)][1..] == [];
      if t[0] == Mark(m) {
        assert (Token(m) + rest)[|Token(m)|..] == rest && Token(m) <= Token(m) + rest;
        RenderAppend(Lift(put), after);
        RenderLifted(put);
      } else {
        if t[0].Mark? {
          TokenSkipsToken(t[0].index, rest, m);
          SkipStretch(Token(t[0].index), rest, Token(m), put);
        } else {
          assert ([t[0].c] + rest)[1..] == rest;
        }
        assert ([t[0]] + after)[1..] == after;
      }
    }
  }

  predicate BareText(t: Text) {
    forall i :: 0 <= i < |t| && t[i].Char? ==> t[i].c != '_'
  }

  /** "MANJU_ALLOWED_VERBATIM_" and a digit: how every placeholder goes on behind its first
      two underscores. */
  predicate TokenLike(s: string) {
    |s| >= 24 && (forall k :: 0 <= k < 23 ==> s[k] == Letter(k + 2)) && '0' <= s[23] <= '9'
  }

  predicate TokenFree(s: string) {
    forall r :: 0 <= r <= |s| ==> !TokenLike(s[r..])
  }

  lemma BareIsTokenFree(s: string)
    requires Bare(s)
    ensures TokenFree(s)
  {
    forall r | 0 <= r <= |s| ensures !TokenLike(s[r..]) {
      if |s[r..]| >= 24 {
        assert s[r..][5] == s[r + 5] && Letter(7) == '_';
      }
    }
  }

  /** It suffices that the text does not name the protection. */
  lemma UnnamedIsTokenFree(s: string)
    requires !Contains(s, "MANJU_ALLOWED_VERBATIM_")
    ensures TokenFree(s)
  {
    var name := "MANJU_ALLOWED_VERBATIM_";
    forall k | 0 <= k < 23 ensures name[k] == Letter(k + 2) {
    }
    forall r | 0 <= r <= |s| ensures !TokenLike(s[r..]) {
      if TokenLike(s[r..]) {
        assert forall k :: 0 <= k < 23 ==> s[r..][k] == name[k];
        assert name <= s[r..];
        ContainsAt(s, name, r);
      }
    }
  }

  lemma TokenFreeBehind(s: string, r: nat)
    requires TokenFree(s) && r <= |s|
    ensures TokenFree(s[r..])
  {
    forall q | 0 <= q <= |s[r..]| ensures !TokenLike(s[r..][q..]) {
      assert s[r..][q..] == s[r + q..];
    }
  }
}
